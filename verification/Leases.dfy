/**
 What leases are for. As long as outcomes are recorded within the lease of their delivery,
 however long deliveries take otherwise, the outbox stays in order and retries are bounded.
 And when that is so: it depends on one inequality between the configuration's numbers.
 */
module Leases {
  import opened Models
  import opened Tables
  import opened Outbox
  import opened Schedule
  import opened Dispatch

  predicate InFlight(f: Flight) {
    f.phase != Over
  }

  /** On its way, and its lease is not over. */
  predicate Holding(s: Net, f: Flight) {
    InFlight(f) && s.now <= f.leaseEnd
  }

  /** Outcomes are recorded within the lease. Nothing else is asked: a delivery may outlive it, unrecorded. */
  ghost predicate Punctual(s: Net, a: Action) {
    a.Book? && a.f < |s.flights| ==> s.now <= s.flights[a.f].leaseEnd
  }

  ghost predicate IsPunctualRun(c: Config, actions: seq<Action>, states: seq<Net>) {
    IsRun(c, actions, states) && forall i | 0 <= i < |actions| :: Punctual(states[i], actions[i])
  }

  predicate SameAggregate(s: Net, f: Flight, g: Flight) {
    && f.row < |s.rows| && g.row < |s.rows|
    && s.rows[f.row].event.orderId == s.rows[g.row].event.orderId
  }

  /** No two lease holders have entries of one aggregate. */
  ghost predicate HoldersApart(s: Net) {
    forall f, g | 0 <= f < g < |s.flights| && Holding(s, s.flights[f]) && Holding(s, s.flights[g]) ::
      !SameAggregate(s, s.flights[f], s.flights[g])
  }

  /** The settled entries of each aggregate form a prefix by position. */
  ghost predicate SettledPrefix(rows: seq<OutboxRow>) {
    forall i, j | Before(rows, i, j) && !Live(rows[j]) :: !Live(rows[i])
  }

  ghost predicate AttemptsLeft(c: Config, rows: seq<OutboxRow>) {
    forall i | 0 <= i < |rows| && Live(rows[i]) :: rows[i].attempts < c.maxAttempts
  }

  /** A lease holder has the head of its aggregate, under its own lease, and knows its attempts. */
  ghost predicate Current(s: Net, f: Flight) {
    && f.row < |s.rows|
    && Head(s.rows, f.row)
    && s.rows[f.row].attempts == f.attempts
    && s.rows[f.row].leaseUntil == Some(f.leaseEnd)
  }

  ghost predicate HoldersCurrent(s: Net) {
    forall f | 0 <= f < |s.flights| && Holding(s, s.flights[f]) :: Current(s, s.flights[f])
  }

  ghost predicate Leasing(c: Config, s: Net) {
    && InPositionOrder(s.rows)
    && HoldersApart(s) && HoldersCurrent(s)
    && SettledPrefix(s.rows) && AttemptsLeft(c, s.rows)
  }

  /** The attempts that the row may still cost. */
  function Left(c: Config, r: OutboxRow): int {
    if Live(r) then c.maxAttempts - r.attempts else 0
  }

  function Potential(c: Config, rows: seq<OutboxRow>): int {
    if rows == [] then 0 else Potential(c, rows[..|rows| - 1]) + Left(c, rows[|rows| - 1])
  }

  lemma {:induction false} PotentialOfUpdate(c: Config, rows: seq<OutboxRow>, i: nat, r: OutboxRow)
    requires i < |rows|
    ensures Potential(c, rows[i := r]) == Potential(c, rows) - Left(c, rows[i]) + Left(c, r)
  {
    var n := |rows| - 1;
    if i == n {
      assert rows[i := r][..n] == rows[..n];
    } else {
      assert rows[i := r][..n] == rows[..n][i := r];
      PotentialOfUpdate(c, rows[..n], i, r);
    }
  }

  lemma {:induction false} PotentialOfSame(c: Config, rows: seq<OutboxRow>, rows': seq<OutboxRow>)
    requires |rows| == |rows'| && forall i | 0 <= i < |rows| :: Left(c, rows[i]) == Left(c, rows'[i])
    ensures Potential(c, rows) == Potential(c, rows')
  {
    if rows != [] {
      PotentialOfSame(c, rows[..|rows| - 1], rows'[..|rows| - 1]);
    }
  }

  lemma {:induction false} PotentialIsNatural(c: Config, rows: seq<OutboxRow>)
    requires AttemptsLeft(c, rows)
    ensures 0 <= Potential(c, rows)
  {
    if rows != [] {
      var front := rows[..|rows| - 1];
      forall i | 0 <= i < |front| && Live(front[i]) ensures front[i].attempts < c.maxAttempts {
        assert front[i] == rows[i];
      }
      PotentialIsNatural(c, front);
    }
  }

  lemma {:induction false} FreshPotential(c: Config, rows: seq<OutboxRow>)
    requires forall i | 0 <= i < |rows| :: Live(rows[i]) && rows[i].attempts == 0
    ensures Potential(c, rows) == |rows| * c.maxAttempts
  {
    if rows != [] {
      FreshPotential(c, rows[..|rows| - 1]);
      Distribute(|rows| - 1, c.maxAttempts);
    }
  }

  /* ----- one step ----- */

  /** Two heads of one aggregate are the same row. */
  lemma HeadsAreUnique(rows: seq<OutboxRow>, i: nat, j: nat)
    requires InPositionOrder(rows) && i < |rows| && j < |rows|
    requires Head(rows, i) && Head(rows, j)
    ensures rows[i].event.orderId == rows[j].event.orderId ==> i == j
  {
  }

  lemma {:induction false} EnqueueKeepsLeasing(c: Config, s: Net, s': Net, r: OutboxRow)
    requires Configured(c) && Leasing(c, s) && Enabled(c, s, Enqueue(r)) && s' == s.(rows := s.rows + [r])
    ensures Leasing(c, s')
    ensures Potential(c, s'.rows) == Potential(c, s.rows) + c.maxAttempts
  {
    assert s'.rows[..|s.rows|] == s.rows;
    forall f | 0 <= f < |s.flights| && Holding(s, s.flights[f]) ensures Current(s', s.flights[f]) {
      assert Current(s, s.flights[f]);
    }
    forall f, g | 0 <= f < g < |s.flights| && Holding(s, s.flights[f]) && Holding(s, s.flights[g])
      ensures !SameAggregate(s', s.flights[f], s.flights[g])
    {
      assert Current(s, s.flights[f]) && Current(s, s.flights[g]);
    }
    forall i, j | Before(s'.rows, i, j) && !Live(s'.rows[j]) ensures !Live(s'.rows[i]) {
      assert Before(s.rows, i, j);
    }
  }

  ghost predicate AllEligible(s: Net, picked: set<nat>) {
    forall i | i in picked :: i < |s.rows| && Eligible(s.rows, i, s.now)
  }

  /** Eligible rows are not those of a lease holder, nor of its aggregate. */
  lemma LeasedElsewhere(s: Net, picked: set<nat>, until: int, f: Flight)
    requires InPositionOrder(s.rows) && Current(s, f) && s.now <= f.leaseEnd
    requires AllEligible(s, picked)
    ensures Current(s.(rows := Leased(s.rows, picked, until)), f)
    ensures forall i | i in picked :: s.rows[i].event.orderId != s.rows[f.row].event.orderId
  {
    forall i | i in picked ensures s.rows[i].event.orderId != s.rows[f.row].event.orderId {
      HeadsAreUnique(s.rows, f.row, i);
    }
  }

  lemma {:induction false} LeaseKeepsRows(c: Config, s: Net, picked: set<nat>, until: int)
    requires Leasing(c, s)
    ensures var rows' := Leased(s.rows, picked, until);
      && InPositionOrder(rows') && SettledPrefix(rows') && AttemptsLeft(c, rows')
      && Potential(c, rows') == Potential(c, s.rows)
  {
    var rows' := Leased(s.rows, picked, until);
    PotentialOfSame(c, s.rows, rows');
    forall i, j | Before(rows', i, j) && !Live(rows'[j]) ensures !Live(rows'[i]) {
      assert Before(s.rows, i, j);
    }
  }

  lemma LeaseKeepsLeasing(c: Config, s: Net, s': Net, picked: set<nat>, until: int)
    requires Leasing(c, s) && AllEligible(s, picked) && s' == s.(rows := Leased(s.rows, picked, until))
    ensures Leasing(c, s')
  {
    LeaseKeepsRows(c, s, picked, until);
    forall f | 0 <= f < |s.flights| && Holding(s, s.flights[f]) ensures Current(s', s.flights[f]) {
      LeasedElsewhere(s, picked, until, s.flights[f]);
    }
    forall f, g | 0 <= f < g < |s.flights| && Holding(s, s.flights[f]) && Holding(s, s.flights[g])
      ensures !SameAggregate(s', s.flights[f], s.flights[g])
    {
      assert !SameAggregate(s, s.flights[f], s.flights[g]);
    }
  }

  /** A new delivery is current, and no lease holder has an entry of its aggregate. */
  ghost predicate Welcome(s: Net, f: Flight) {
    && Current(s, f)
    && forall g | 0 <= g < |s.flights| && Holding(s, s.flights[g]) :: !SameAggregate(s, s.flights[g], f)
  }

  lemma LaunchKeepsLeasing(c: Config, s: Net, s': Net, launched: seq<Flight>)
    requires Leasing(c, s) && s' == s.(flights := s.flights + launched)
    requires forall f | 0 <= f < |launched| :: Welcome(s, launched[f])
    requires forall f, g | 0 <= f < g < |launched| :: !SameAggregate(s, launched[f], launched[g])
    ensures Leasing(c, s')
  {
  }

  /** A delivery launched for a leased row. */
  ghost predicate LaunchedFor(s: Net, picked: set<nat>, until: int, f: Flight) {
    f.row in picked && f.row < |s.rows| && s.rows[f.row].attempts == f.attempts && f.leaseEnd == until
  }

  lemma LeasedIsWelcome(c: Config, s: Net, picked: set<nat>, until: int, f: Flight)
    requires Leasing(c, s) && AllEligible(s, picked) && LaunchedFor(s, picked, until, f)
    ensures Welcome(s.(rows := Leased(s.rows, picked, until)), f)
  {
    var s' := s.(rows := Leased(s.rows, picked, until));
    assert Current(s', f);
    forall g | 0 <= g < |s.flights| && Holding(s', s.flights[g]) ensures !SameAggregate(s', s.flights[g], f) {
      LeasedElsewhere(s, picked, until, s.flights[g]);
    }
  }

  lemma {:induction false} LeaseAndLaunch(
    c: Config, s: Net, s'': Net, picked: set<nat>, until: int, launched: seq<Flight>)
    requires s'' == s.(rows := Leased(s.rows, picked, until), flights := s.flights + launched)
    requires Leasing(c, s) && AllEligible(s, picked)
    requires forall f | 0 <= f < |launched| :: LaunchedFor(s, picked, until, launched[f])
    requires forall f, g | 0 <= f < g < |launched| :: !SameAggregate(s, launched[f], launched[g])
    ensures Leasing(c, s'') && Potential(c, s''.rows) == Potential(c, s.rows)
  {
    var s' := s.(rows := Leased(s.rows, picked, until));
    LeaseKeepsRows(c, s, picked, until);
    LeaseKeepsLeasing(c, s, s', picked, until);
    forall f | 0 <= f < |launched| ensures Welcome(s', launched[f]) {
      LeasedIsWelcome(c, s, picked, until, launched[f]);
    }
    forall f, g | 0 <= f < g < |launched| ensures !SameAggregate(s', launched[f], launched[g]) {
      assert !SameAggregate(s, launched[f], launched[g]);
    }
    LaunchKeepsLeasing(c, s', s'', launched);
  }

  /** A claim leases eligible rows of different aggregates. */
  lemma ClaimIsLaunch(c: Config, s: Net, picked: seq<nat>, lasts: seq<int>)
    requires Configured(c) && InPositionOrder(s.rows) && Enabled(c, s, Claim(picked, lasts))
    ensures AllEligible(s, Rows(picked))
    ensures var launched := Launched(c, s, picked, lasts);
      && (forall f | 0 <= f < |launched| :: LaunchedFor(s, Rows(picked), s.now + c.lease, launched[f]))
      && (forall f, g | 0 <= f < g < |launched| :: !SameAggregate(s, launched[f], launched[g]))
  {
    var launched := Launched(c, s, picked, lasts);
    forall f | 0 <= f < |launched| ensures LaunchedFor(s, Rows(picked), s.now + c.lease, launched[f]) {
      assert picked[f] in picked;
    }
    forall f, g | 0 <= f < g < |launched| ensures !SameAggregate(s, launched[f], launched[g]) {
      HeadsAreUnique(s.rows, picked[f], picked[g]);
    }
  }

  lemma {:induction false} ClaimKeepsLeasing(c: Config, s: Net, picked: seq<nat>, lasts: seq<int>)
    requires Configured(c) && Leasing(c, s) && Enabled(c, s, Claim(picked, lasts))
    ensures Leasing(c, Act(c, s, Claim(picked, lasts)))
    ensures Potential(c, Act(c, s, Claim(picked, lasts)).rows) == Potential(c, s.rows)
  {
    var s', launched := Act(c, s, Claim(picked, lasts)), Launched(c, s, picked, lasts);
    ClaimIsLaunch(c, s, picked, lasts);
    LeaseAndLaunch(c, s, s', Rows(picked), s.now + c.lease, launched);
  }

  /** What is recorded about the head of an aggregate concerns no lease holder but its own. */
  lemma BookKeepsOthers(c: Config, s: Net, f: nat)
    requires Leasing(c, s) && Enabled(c, s, Book(f)) && Punctual(s, Book(f))
    ensures HoldersCurrent(Booked(c, s, f)) && HoldersApart(Booked(c, s, f))
  {
    assert Holding(s, s.flights[f]);
  }

  /** The recorded row is the live head; settling it extends the settled prefix, and a retry costs an attempt. */
  lemma {:induction false} BookKeepsRows(c: Config, s: Net, f: nat)
    requires Leasing(c, s) && Enabled(c, s, Book(f)) && Punctual(s, Book(f))
    ensures var s' := Booked(c, s, f);
      && InPositionOrder(s'.rows) && SettledPrefix(s'.rows) && AttemptsLeft(c, s'.rows)
      && s'.recorded + Potential(c, s'.rows) <= s.recorded + Potential(c, s.rows)
      && (s'.recorded > s.recorded ==> Potential(c, s'.rows) < Potential(c, s.rows))
  {
    var flight, mark := s.flights[f], MarkOf(c, s.flights[f]);
    assert Holding(s, flight) && Current(s, flight);
    var rows' := s.rows[flight.row := Recorded(s.rows[flight.row], mark, s.now)];
    PotentialOfUpdate(c, s.rows, flight.row, rows'[flight.row]);
    forall i, j | Before(rows', i, j) && !Live(rows'[j]) ensures !Live(rows'[i]) {
      assert Before(s.rows, i, j);
    }
  }

  lemma LoseKeepsLeasing(c: Config, s: Net, fs: set<nat>)
    requires Leasing(c, s)
    ensures Leasing(c, s.(flights := Landed(s.flights, fs)))
  {
  }

  /** A delivery on its way goes on to another phase. */
  lemma PhaseKeepsLeasing(c: Config, s: Net, s': Net, f: nat, p: Phase)
    requires Leasing(c, s) && f < |s.flights| && InFlight(s.flights[f])
    requires s'.rows == s.rows && s'.now == s.now && s'.flights == WithPhase(s, f, p)
    ensures Leasing(c, s')
  {
  }

  lemma TickKeepsLeasing(c: Config, s: Net, d: nat)
    requires Leasing(c, s)
    ensures Leasing(c, s.(now := s.now + d))
  {
  }

  /** Each recorded outcome uses up at least one of the attempts left; only a new entry brings more. */
  lemma {:induction false} ActKeepsLeasing(c: Config, s: Net, a: Action)
    requires Configured(c) && Leasing(c, s) && Enabled(c, s, a) && Punctual(s, a)
    ensures var s' := Act(c, s, a);
      && Leasing(c, s')
      && (s'.recorded > s.recorded ==> Potential(c, s'.rows) < Potential(c, s.rows))
      && s'.recorded + Potential(c, s'.rows) <=
         s.recorded + Potential(c, s.rows) + if a.Enqueue? then c.maxAttempts else 0
  {
    match a
    case Enqueue(r) => EnqueueKeepsLeasing(c, s, Act(c, s, a), r);
    case Tick(d) => TickKeepsLeasing(c, s, d);
    case Claim(picked, lasts) => ClaimKeepsLeasing(c, s, picked, lasts);
    case Request(f) => PhaseKeepsLeasing(c, s, Act(c, s, a), f, Requested);
    case Reply(_, _) => LoseKeepsLeasing(c, s, {});
    case Conclude(f, answer, cancelled) => PhaseKeepsLeasing(c, s, Act(c, s, a), f, Answered(answer, cancelled));
    case Book(f) =>
      BookKeepsOthers(c, s, f);
      BookKeepsRows(c, s, f);
    case Lose(fs) => LoseKeepsLeasing(c, s, fs);
  }

  lemma {:induction false} PunctualRunKeepsLeasing(c: Config, actions: seq<Action>, states: seq<Net>, i: nat)
    requires IsPunctualRun(c, actions, states) && i < |states|
    ensures var s := states[i];
      Leasing(c, s) && s.recorded + Potential(c, s.rows) <= |s.rows| * c.maxAttempts
  {
    if i == 0 {
      FreshPotential(c, states[0].rows);
    } else {
      PunctualRunKeepsLeasing(c, actions, states, i - 1);
      ActKeepsLeasing(c, states[i - 1], actions[i - 1]);
      Distribute(|states[i - 1].rows|, c.maxAttempts);
    }
  }

  /**
   If outcomes are recorded within the lease: the settled entries of each aggregate are
   always a prefix, every live entry has attempts left, and N entries never take more than
   N * maxAttempts recorded attempts. Deliveries may take any time, and any number of them
   may be lost.
   */
  lemma RetriesAreBounded(c: Config, actions: seq<Action>, states: seq<Net>, i: nat)
    requires IsPunctualRun(c, actions, states) && i < |states|
    ensures SettledPrefix(states[i].rows) && AttemptsLeft(c, states[i].rows)
    ensures states[i].recorded <= |states[i].rows| * c.maxAttempts
  {
    PunctualRunKeepsLeasing(c, actions, states, i);
    PotentialIsNatural(c, states[i].rows);
  }

  /** No step takes a settled entry back: a dead one stays dead, a delivered one delivered. */
  ghost predicate SettledStays(rows: seq<OutboxRow>, rows': seq<OutboxRow>) {
    && |rows| <= |rows'|
    && forall i | 0 <= i < |rows| :: (rows[i].dead ==> rows'[i].dead) && (rows[i].processed ==> rows'[i].processed)
  }

  lemma ActKeepsSettled(c: Config, s: Net, a: Action)
    requires Configured(c) && Leasing(c, s) && Enabled(c, s, a) && Punctual(s, a)
    ensures SettledStays(s.rows, Act(c, s, a).rows)
  {
    if a.Book? {
      assert Holding(s, s.flights[a.f]) && Current(s, s.flights[a.f]);
    }
  }

  lemma SettledStaysOn(a: seq<OutboxRow>, b: seq<OutboxRow>, c: seq<OutboxRow>)
    requires SettledStays(a, b) && SettledStays(b, c)
    ensures SettledStays(a, c)
  {
  }

  lemma StepKeepsSettled(c: Config, actions: seq<Action>, states: seq<Net>, i: nat)
    requires IsPunctualRun(c, actions, states) && i < |actions|
    ensures SettledStays(states[i].rows, states[i + 1].rows)
  {
    PunctualRunKeepsLeasing(c, actions, states, i);
    ActKeepsSettled(c, states[i], actions[i]);
  }

  ghost predicate SettledStaysBetween(states: seq<Net>) {
    forall k | 0 <= k < |states| - 1 :: SettledStays(states[k].rows, states[k + 1].rows)
  }

  lemma {:induction false} SettledAlong(states: seq<Net>, i: nat, j: nat)
    requires SettledStaysBetween(states) && i <= j < |states|
    ensures SettledStays(states[i].rows, states[j].rows)
    decreases j
  {
    if i < j {
      SettledAlong(states, i, j - 1);
      SettledStaysOn(states[i].rows, states[j - 1].rows, states[j - 1 + 1].rows);
    }
  }

  /** A dead entry is never retried, if outcomes are recorded within the lease. */
  lemma DeadStaysDead(c: Config, actions: seq<Action>, states: seq<Net>, i: nat, j: nat)
    requires IsPunctualRun(c, actions, states) && i <= j < |states|
    ensures SettledStays(states[i].rows, states[j].rows)
  {
    forall k | 0 <= k < |states| - 1 ensures SettledStays(states[k].rows, states[k + 1].rows) {
      StepKeepsSettled(c, actions, states, k);
    }
    SettledAlong(states, i, j);
  }

  /* ----- the schedule of a batch ----- */

  /**
   What a dispatcher can do, and when. Deliveries last at most `c.longest` and hold their
   slot for as long: a request is made from the start of the slot on, its outcome recorded
   at the end - if the bookkeeping deadline, which runs from the start of the slot, has not
   passed - and the clock does not run past a delivery that is on its way. Deliveries are
   lost when their bookkeeping fails, then, or all those of a batch at once, in a crash.
   */
  ghost predicate Paced(c: Config, s: Net, a: Action) {
    match a
    case Claim(_, lasts) => EachLasts(lasts, c.longest)
    case Tick(d) => forall f | 0 <= f < |s.flights| && InFlight(s.flights[f]) :: s.now + d <= s.flights[f].due
    case Request(f) => f < |s.flights| ==> s.flights[f].start <= s.now
    case Conclude(f, _, _) => f < |s.flights| ==> s.flights[f].start <= s.now
    case Book(f) => f < |s.flights| ==> s.now == s.flights[f].due <= s.flights[f].start + c.booking
    case Lose(fs) => BookkeepingFails(s, fs) || Crashes(s, fs)
    case _ => true
  }

  ghost predicate BookkeepingFails(s: Net, fs: set<nat>) {
    forall f | f in fs && f < |s.flights| :: s.flights[f].phase.Answered? && s.now == s.flights[f].due
  }

  ghost predicate Crashes(s: Net, fs: set<nat>) {
    forall f, g | 0 <= f < |s.flights| && 0 <= g < |s.flights| && s.flights[f].batch == s.flights[g].batch && f in fs ::
      g in fs
  }

  ghost predicate IsPacedRun(c: Config, actions: seq<Action>, states: seq<Net>) {
    IsRun(c, actions, states) && forall i | 0 <= i < |actions| :: Paced(c, states[i], actions[i])
  }

  /** A full batch is over before its lease is. */
  predicate Fits(c: Config)
    requires Configured(c)
  {
    CeilDiv(c.batchSize, c.workers) * c.longest <= c.lease
  }

  /** No two deliveries of one aggregate are on their way at the same time. */
  ghost predicate Exclusive(s: Net) {
    forall f, g | 0 <= f < g < |s.flights| && InFlight(s.flights[f]) && InFlight(s.flights[g]) ::
      !SameAggregate(s, s.flights[f], s.flights[g])
  }

  ghost predicate InTime(s: Net) {
    forall f | 0 <= f < |s.flights| && InFlight(s.flights[f]) :: s.now <= s.flights[f].due <= s.flights[f].leaseEnd
  }

  /** The batch is over before its lease is. */
  lemma {:induction false} LaunchedInTime(c: Config, s: Net, picked: seq<nat>, lasts: seq<int>, i: nat)
    requires Configured(c) && Fits(c) && Enabled(c, s, Claim(picked, lasts)) && EachLasts(lasts, c.longest)
    requires i < |picked|
    ensures s.now <= Launched(c, s, picked, lasts)[i].due <= s.now + c.lease
  {
    EndsWithin(c.workers, lasts, c.longest, i);
    SmallerBatch(|lasts|, c.batchSize, c.workers, c.longest);
    StartsLater(c.workers, lasts, c.longest, i);
  }

  lemma ActKeepsInTime(c: Config, s: Net, a: Action)
    requires Configured(c) && Fits(c) && InTime(s) && Enabled(c, s, a) && Paced(c, s, a)
    ensures InTime(Act(c, s, a))
  {
    if a.Claim? {
      forall i | 0 <= i < |a.picked| ensures s.now <= Launched(c, s, a.picked, a.lasts)[i].due <= s.now + c.lease {
        LaunchedInTime(c, s, a.picked, a.lasts, i);
      }
    }
  }

  lemma {:induction false} PacedRunIsInTime(c: Config, actions: seq<Action>, states: seq<Net>, i: nat)
    requires IsPacedRun(c, actions, states) && Fits(c) && i < |states|
    ensures InTime(states[i])
  {
    if i > 0 {
      PacedRunIsInTime(c, actions, states, i - 1);
      ActKeepsInTime(c, states[i - 1], actions[i - 1]);
    }
  }

  /** Leases that outlast a batch make every run one in which outcomes are recorded within the lease. */
  lemma FittingIsPunctual(c: Config, actions: seq<Action>, states: seq<Net>)
    requires IsPacedRun(c, actions, states) && Fits(c)
    ensures IsPunctualRun(c, actions, states)
    ensures forall i | 0 <= i < |states| :: Exclusive(states[i])
  {
    forall i | 0 <= i < |actions| ensures Punctual(states[i], actions[i]) {
      PacedRunIsInTime(c, actions, states, i);
      assert Enabled(c, states[i], actions[i]);
    }
    forall i | 0 <= i < |states| ensures Exclusive(states[i]) {
      PacedRunIsInTime(c, actions, states, i);
      PunctualRunKeepsLeasing(c, actions, states, i);
    }
  }

  /* ----- the bookkeeping deadline ----- */

  /** The last moment of a slot at which an outcome is recorded. */
  function LastMark(c: Config): nat {
    if c.longest < c.booking then c.longest else c.booking
  }

  /** Even the last delivery of a full batch has no outcome to record after its lease. */
  predicate MarksFit(c: Config)
    requires Configured(c)
  {
    (CeilDiv(c.batchSize, c.workers) - 1) * c.longest + LastMark(c) <= c.lease
  }

  lemma {:induction false} MarksFitIs(c: Config)
    requires Configured(c)
    ensures MarksFit(c) <==> Begins(c.batchSize - 1, c.workers, c.longest) + LastMark(c) <= c.lease
    ensures Fits(c) ==> MarksFit(c)
  {
    BeginsIs(c.batchSize - 1, c.workers, c.longest);
    LastRoundEnds(c.batchSize, c.workers, c.longest);
  }

  predicate Scheduled(c: Config, f: Flight) {
    f.start + LastMark(c) <= f.leaseEnd && f.due <= f.start + c.longest
  }

  ghost predicate AllScheduled(c: Config, s: Net) {
    forall f | 0 <= f < |s.flights| :: Scheduled(c, s.flights[f])
  }

  lemma {:induction false} LaunchedIsScheduled(
    c: Config, s: Net, picked: seq<nat>, lasts: seq<int>, i: nat)
    requires Configured(c) && MarksFit(c) && Enabled(c, s, Claim(picked, lasts)) && EachLasts(lasts, c.longest)
    requires i < |picked|
    ensures Scheduled(c, Launch(c, s, picked, lasts, i))
  {
    MarksFitIs(c);
    StartsWithin(c.workers, lasts, c.longest, i);
    BeginsIs(i, c.workers, c.longest);
    BeginsGrows(i, c.batchSize - 1, c.workers, c.longest);
  }

  lemma ActKeepsScheduled(c: Config, s: Net, a: Action)
    requires Configured(c) && MarksFit(c) && AllScheduled(c, s) && Enabled(c, s, a) && Paced(c, s, a)
    ensures AllScheduled(c, Act(c, s, a))
  {
    if a.Claim? {
      forall i | 0 <= i < |a.picked| ensures Scheduled(c, Launched(c, s, a.picked, a.lasts)[i]) {
        LaunchedIsScheduled(c, s, a.picked, a.lasts, i);
      }
    }
  }

  lemma {:induction false} PacedRunIsScheduled(c: Config, actions: seq<Action>, states: seq<Net>, i: nat)
    requires IsPacedRun(c, actions, states) && MarksFit(c) && i < |states|
    ensures AllScheduled(c, states[i])
  {
    if i > 0 {
      PacedRunIsScheduled(c, actions, states, i - 1);
      ActKeepsScheduled(c, states[i - 1], actions[i - 1]);
    }
  }

  lemma ScheduledIsPunctual(c: Config, s: Net, a: Action)
    requires Configured(c) && AllScheduled(c, s) && Enabled(c, s, a) && Paced(c, s, a)
    ensures Punctual(s, a)
  {
    if a.Book? {
      assert Scheduled(c, s.flights[a.f]);
    }
  }

  /** If no outcome can be recorded after the lease, deliveries that outlast it do no harm. */
  lemma MarksFitIsPunctual(c: Config, actions: seq<Action>, states: seq<Net>)
    requires IsPacedRun(c, actions, states) && MarksFit(c)
    ensures IsPunctualRun(c, actions, states)
  {
    forall i | 0 <= i < |actions| ensures Punctual(states[i], actions[i]) {
      PacedRunIsScheduled(c, actions, states, i);
      ScheduledIsPunctual(c, states[i], actions[i]);
    }
  }

  /** A delivery whose outcome could be recorded at the end of its slot. */
  predicate Recordable(c: Config, f: Flight) {
    f.due <= f.start + c.booking
  }

  /** The outcomes on a row are those of deliveries that met the deadline. */
  ghost predicate RecordedInTime(c: Config, s: Net) {
    forall r | 0 <= r < |s.rows| && (s.rows[r].attempts != 0 || !Live(s.rows[r])) ::
      exists f :: 0 <= f < |s.flights| && s.flights[f].row == r && Recordable(c, s.flights[f])
  }

  /** The deliveries of a state are still there in the next one, with their rows and slots. */
  ghost predicate SameSlots(s: Net, s': Net) {
    && |s.flights| <= |s'.flights|
    && forall f | 0 <= f < |s.flights| ::
         && s'.flights[f].row == s.flights[f].row
         && s'.flights[f].start == s.flights[f].start && s'.flights[f].due == s.flights[f].due
  }

  lemma ActKeepsSlots(c: Config, s: Net, a: Action)
    requires Configured(c) && Enabled(c, s, a)
    ensures SameSlots(s, Act(c, s, a))
  {
  }

  lemma ActKeepsRecorded(c: Config, s: Net, a: Action)
    requires Configured(c) && RecordedInTime(c, s) && Enabled(c, s, a) && Paced(c, s, a)
    ensures RecordedInTime(c, Act(c, s, a))
  {
    var s' := Act(c, s, a);
    ActKeepsSlots(c, s, a);
    forall r | 0 <= r < |s'.rows| && (s'.rows[r].attempts != 0 || !Live(s'.rows[r]))
      ensures exists f :: 0 <= f < |s'.flights| && s'.flights[f].row == r && Recordable(c, s'.flights[f])
    {
      if a.Book? && s.flights[a.f].row == r {
        assert s'.flights[a.f].row == r && Recordable(c, s'.flights[a.f]);
      } else {
        assert r < |s.rows|;
        var f :| 0 <= f < |s.flights| && s.flights[f].row == r && Recordable(c, s.flights[f]);
        assert s'.flights[f].row == r && Recordable(c, s'.flights[f]);
      }
    }
  }

  /**
   A delivery that outlasts the bookkeeping deadline leaves no trace: an entry all of whose
   deliveries do is neither counted nor dead-lettered, however often it is sent.
   */
  lemma {:induction false} OutlastingIsUnrecorded(c: Config, actions: seq<Action>, states: seq<Net>, i: nat)
    requires IsPacedRun(c, actions, states) && i < |states|
    ensures RecordedInTime(c, states[i])
    ensures forall r | 0 <= r < |states[i].rows|
              && (forall f | f in states[i].flights && f.row == r :: !Recordable(c, f)) ::
              states[i].rows[r].attempts == 0 && Live(states[i].rows[r])
  {
    if i > 0 {
      OutlastingIsUnrecorded(c, actions, states, i - 1);
      ActKeepsRecorded(c, states[i - 1], actions[i - 1]);
    }
  }
}

/** What the serial history of a concurrent run contains, and what follows from it. */
module SerialHistory {
  import opened Models
  import opened Sequencing
  import opened Ledger
  import opened Tables
  import opened Transactions
  import opened Serial
  import Confluence

  /* ----- the history is made of the transactions that committed ----- */

  function JobOf(k: Worker): Option<Job> {
    match k
    case Waiting(j) => Some(j)
    case Holding(j) => Some(j)
    case Deciding(j, _) => Some(j)
    case Draining(e, at, _, _) => Some(StepJob(e, at))
    case Ready(j, _, _) => Some(j)
    case Found(e, at) => Some(StepJob(e, at))
    case _ => None
  }

  ghost predicate BegunBy(actions: seq<Action>, n: nat, j: Job) {
    exists i :: 0 <= i < n && i < |actions| && actions[i].Begin? && actions[i].job == j
  }

  /** A sweep removed the buffered event under `k`. */
  ghost predicate SweptAway(ts: seq<Txn>, k: PendingKey) {
    exists t :: t in ts && t.Removed? && k in t.keys
  }

  ghost predicate HistoryOk(actions: seq<Action>, n: nat, s: Sys) {
    && (forall w | 0 <= w < |s.workers| && JobOf(s.workers[w]).Some? ::
          BegunBy(actions, n, JobOf(s.workers[w]).value))
    && (forall t | t in s.serial && t.Ran? :: BegunBy(actions, n, t.job))
    && (forall w | 0 <= w < |s.workers| && s.workers[w].Found? ::
          KeyOf(s.workers[w].step) in s.tables.pending || SweptAway(s.serial, KeyOf(s.workers[w].step)))
  }

  /** A step of worker `a.w` keeps its job, or takes up the one that begins, and logs at most that. */
  ghost predicate LogStep(s: Sys, a: Action, s': Sys) {
    && a.w < |s.workers| == |s'.workers|
    && s'.serial == s.serial + Commits(s, a)
    && (forall v | 0 <= v < |s.workers| && v != a.w :: s'.workers[v] == s.workers[v])
    && var k, k' := s.workers[a.w], s'.workers[a.w];
       && (JobOf(k').Some? ==> JobOf(k') == if a.Begin? then Some(a.job) else JobOf(k))
       && (k'.Sweeping? ==> a == SelectRows(a.w, k'.keys))
       && (k'.Found? ==> KeyOf(k'.step) in s.tables.pending && s'.tables == s.tables)
  }

  lemma StageIsLogStep(s: Sys, w: nat)
    requires Inv(s) && Enabled(s, Stage(w))
    ensures LogStep(s, Stage(w), Act(s, Stage(w)))
  {
    assert WorkerOk(s.tables, s.workers[w]);
    match s.workers[w].job {
      case StepJob(e, at) => assert Act(s, Stage(w)) == StageStep(s, w, e, at, s.workers[w].state);
      case AbortJob(e, at) => assert Act(s, Stage(w)) == StageAbort(s, w, e, at, s.workers[w].state);
    }
  }

  lemma DrainIsLogStep(s: Sys, w: nat)
    requires Inv(s) && Enabled(s, DrainOne(w))
    ensures LogStep(s, DrainOne(w), Act(s, DrainOne(w)))
  {
  }

  lemma ActIsLogStep(s: Sys, a: Action)
    requires Inv(s) && Enabled(s, a)
    ensures LogStep(s, a, Act(s, a))
  {
    match a
    case Stage(w) => StageIsLogStep(s, w);
    case DrainOne(w) => DrainIsLogStep(s, w);
    case _ =>
  }

  lemma BegunStays(actions: seq<Action>, n: nat, j: Job)
    ensures BegunBy(actions, n, j) ==> BegunBy(actions, n + 1, j)
    ensures n < |actions| && actions[n].Begin? ==> BegunBy(actions, n + 1, actions[n].job)
  {
  }

  /** A buffered event of order `o` is gone only after a sweep, or a commit by the holder of the order's lock. */
  lemma {:induction false} KeptBuffered(s: Sys, a: Action, k: PendingKey)
    requires Inv(s) && Enabled(s, a) && k in s.tables.pending
    requires LockOf(s.workers[a.w]) != Some(k.orderId)
    ensures k in Act(s, a).tables.pending || SweptAway(s.serial + Commits(s, a), k)
  {
    var w := s.workers[a.w];
    assert WorkerOk(s.tables, w);
    if a.Commit? && w.Ready? && w.staged != [] {
      JobIsDone(View(s.tables, OrderOf(w.job)), w.job, w.next, w.staged);
      LocalDeletes(OrderOf(w.job), w.staged);
      RowsStay(s.tables, w.staged, {k});
    } else if a.Commit? && w.Sweeping? && k in w.keys {
      assert Removed(w.keys) in s.serial + Commits(s, a);
    }
  }

  lemma {:induction false} LocalDeletes(o: OrderId, ws: seq<Write>)
    requires Local(o, ws)
    ensures forall k | k in Deleted(ws) :: k.orderId == o
  {
    if ws != [] {
      LocalDeletes(o, ws[..|ws| - 1]);
      assert LocalWrite(o, ws[|ws| - 1]);
    }
  }

  lemma FoundStays(actions: seq<Action>, n: nat, s: Sys, v: nat)
    requires n < |actions| && Inv(s) && HistoryOk(actions, n, s) && Enabled(s, actions[n])
    requires v < |s.workers| && v != actions[n].w && s.workers[v].Found?
    ensures var k, s' := KeyOf(s.workers[v].step), Act(s, actions[n]);
      k in s'.tables.pending || SweptAway(s.serial + Commits(s, actions[n]), k)
  {
    var k, a := KeyOf(s.workers[v].step), actions[n];
    if SweptAway(s.serial, k) {
      var t :| t in s.serial && t.Removed? && k in t.keys;
      assert t in s.serial + Commits(s, a);
    } else {
      assert LockOf(s.workers[v]) == Some(k.orderId);
      KeptBuffered(s, a, k);
    }
  }

  lemma HistoryStep(actions: seq<Action>, n: nat, s: Sys)
    requires n < |actions| && Inv(s) && HistoryOk(actions, n, s) && Enabled(s, actions[n])
    ensures HistoryOk(actions, n + 1, Act(s, actions[n]))
  {
    var a, s' := actions[n], Act(s, actions[n]);
    ActIsLogStep(s, a);
    forall w | 0 <= w < |s'.workers| && JobOf(s'.workers[w]).Some?
      ensures BegunBy(actions, n + 1, JobOf(s'.workers[w]).value)
    {
      BegunStays(actions, n, JobOf(s'.workers[w]).value);
    }
    forall t | t in s'.serial && t.Ran? ensures BegunBy(actions, n + 1, t.job) {
      BegunStays(actions, n, t.job);
    }
    forall w | 0 <= w < |s'.workers| && s'.workers[w].Found?
      ensures KeyOf(s'.workers[w].step) in s'.tables.pending || SweptAway(s'.serial, KeyOf(s'.workers[w].step))
    {
      if w != a.w {
        FoundStays(actions, n, s, w);
      }
    }
  }

  lemma {:induction false} HistoryHolds(n: nat, actions: seq<Action>, states: seq<Sys>, i: nat)
    requires IsRun(n, actions, states) && i < |states|
    ensures HistoryOk(actions, i, states[i])
  {
    if i > 0 {
      HistoryHolds(n, actions, states, i - 1);
      RunKeepsInv(n, actions, states, i - 1);
      HistoryStep(actions, i - 1, states[i - 1]);
    }
  }

  /**
   What the serial order leaves out: nothing but the commit of a delivery that found its
   event buffered, and whose buffered copy a sweep removed before that commit. Every
   other commit is in it once, at its place, and whatever is in it was begun; a
   transaction that rolls back is not.
   */
  lemma {:induction false} CommittedIsLogged(n: nat, actions: seq<Action>, states: seq<Sys>, i: nat)
    requires IsRun(n, actions, states) && i < |actions|
    ensures var was, now := Committed(actions, states, i), Committed(actions, states, i + 1);
      var k := states[i].workers[actions[i].w];
      && (actions[i].Commit? && JobOf(k).Some? ==>
            || now == was + [Ran(JobOf(k).value)]
            || (now == was && k.Found? && SweptAway(was, KeyOf(k.step))))
      && (actions[i].Commit? && k.Sweeping? ==> now == was + [Removed(k.keys)])
      && (!actions[i].Commit? ==> now == was)
      && (forall t | t in was && t.Ran? :: BegunBy(actions, i, t.job))
  {
    HistoryHolds(n, actions, states, i);
    SerialIsCommitted(n, actions, states, i);
    assert Enabled(states[i], actions[i]);
  }

  /* ----- concurrent deliveries ----- */

  /** The steps of order `o` in the history. */
  function StepsRun(o: OrderId, ts: seq<Txn>): seq<Step> {
    if ts == [] then []
    else
      var front, last := StepsRun(o, ts[..|ts| - 1]), ts[|ts| - 1];
      if last.Ran? && last.job.StepJob? && last.job.step.orderId == o then front + [last.job.step] else front
  }

  ghost predicate NoneOfOrder(o: OrderId, keys: set<PendingKey>) {
    forall k | k in keys :: k.orderId != o
  }

  /** Deliveries, and sweeps of other orders' rows. */
  ghost predicate OnlySteps(o: OrderId, ts: seq<Txn>) {
    && (forall t | t in ts && t.Ran? && OrderOf(t.job) == o :: t.job.StepJob?)
    && (forall t | t in ts && t.Removed? :: NoneOfOrder(o, t.keys))
  }

  lemma {:induction false} RemovedElsewhere(o: OrderId, ts: seq<Txn>, keys: set<PendingKey>)
    requires NoneOfOrder(o, keys)
    ensures Expire(RunSerial(o, ts), keys) == RunSerial(o, ts)
  {
    SerialIsGood(o, ts);
    assert RunSerial(o, ts).pending - keys == RunSerial(o, ts).pending;
  }

  lemma {:induction false} CommandsOneMore(es: seq<Step>, e: Step)
    ensures Run(EMPTY, Confluence.Commands(es + [e])) == DeliverStep(Run(EMPTY, Confluence.Commands(es)), e)
  {
    var cs := Confluence.Commands(es + [e]);
    assert cs[..|cs| - 1] == Confluence.Commands(es);
  }

  lemma {:induction false} SerialOfSteps(o: OrderId, ts: seq<Txn>)
    requires OnlySteps(o, ts)
    ensures RunSerial(o, ts) == Run(EMPTY, Confluence.Commands(StepsRun(o, ts)))
    ensures forall e | e in StepsRun(o, ts) :: e.orderId == o && exists at :: Ran(StepJob(e, at)) in ts
  {
    if ts != [] {
      var front, last := ts[..|ts| - 1], ts[|ts| - 1];
      SerialOfSteps(o, front);
      assert last in ts;
      var es := StepsRun(o, front);
      if last.Ran? && last.job.StepJob? && last.job.step.orderId == o {
        CommandsOneMore(es, last.job.step);
      } else if last.Removed? {
        RemovedElsewhere(o, front, last.keys);
      }
    }
  }

  /** The rows of order `o` are left alone by every sweep under way or done. */
  ghost predicate SweptElsewhere(o: OrderId, s: Sys) {
    && (forall t | t in s.serial && t.Removed? :: NoneOfOrder(o, t.keys))
    && (forall w | 0 <= w < |s.workers| && s.workers[w].Sweeping? :: NoneOfOrder(o, s.workers[w].keys))
  }

  lemma {:induction false} SweepsStayElsewhere(
    n: nat, actions: seq<Action>, states: seq<Sys>, i: nat, o: OrderId)
    requires IsRun(n, actions, states) && i < |states|
    requires forall a | a in actions && a.SelectRows? :: NoneOfOrder(o, a.keys)
    ensures SweptElsewhere(o, states[i])
  {
    if i > 0 {
      SweepsStayElsewhere(n, actions, states, i - 1, o);
      var s, a := states[i - 1], actions[i - 1];
      assert a in actions;
      RunKeepsInv(n, actions, states, i - 1);
      ActIsLogStep(s, a);
    }
  }

  /**
   Any number of workers deliver events of one plan of order `o`, shuffled, repeated and
   interleaved statement by statement, among anything else for other orders and sweeps of
   their rows. At every moment the order is the longest gap-free prefix of the deliveries
   committed so far.
   */
  lemma {:induction false} ConcurrentDeliveriesConverge(
    n: nat, actions: seq<Action>, states: seq<Sys>, i: nat, o: OrderId, plan: PlanId, es: seq<Step>)
    requires IsRun(n, actions, states) && i < |states|
    requires forall a | a in actions && a.SelectRows? :: NoneOfOrder(o, a.keys)
    requires Confluence.OfPlan(o, plan, es) && Confluence.OnePayload(es)
    requires forall a | a in actions && a.Begin? && OrderOf(a.job) == o :: a.job.StepJob? && a.job.step in es
    ensures var done := StepsRun(o, Committed(actions, states, i));
      Confluence.LongestPrefix(o, plan, View(states[i].tables, o), Confluence.Delivered(done))
  {
    var s := states[i];
    HistoryHolds(n, actions, states, i);
    SweepsStayElsewhere(n, actions, states, i, o);
    EveryInterleavingIsSerial(n, actions, states, i, o);
    SerialIsCommitted(n, actions, states, i);
    forall t | t in s.serial && t.Ran? && OrderOf(t.job) == o ensures t.job.StepJob? && t.job.step in es {
      var j :| 0 <= j < i && j < |actions| && actions[j].Begin? && actions[j].job == t.job;
      assert actions[j] in actions;
    }
    SerialOfSteps(o, s.serial);
    StepsAmong(o, s.serial, es);
    var done := StepsRun(o, s.serial);
    assert forall x | 0 <= x < |done| :: done[x] in done;
    Confluence.AnyOrderConverges(o, plan, done);
  }

  lemma {:induction false} StepsAmong(o: OrderId, ts: seq<Txn>, es: seq<Step>)
    requires forall t | t in ts && t.Ran? && OrderOf(t.job) == o :: t.job.StepJob? && t.job.step in es
    ensures forall e | e in StepsRun(o, ts) :: e in es && e.orderId == o
  {
    if ts != [] {
      StepsAmong(o, ts[..|ts| - 1], es);
      assert ts[|ts| - 1] in ts;
    }
  }

  /* ----- outbox positions ----- */

  function Appends(ws: seq<Write>): seq<OutboxRow> {
    if ws == [] then []
    else
      var front, last := Appends(ws[..|ws| - 1]), ws[|ws| - 1];
      if last.Append? then front + [last.entry] else front
  }

  function StagedBy(k: Worker): seq<Write> {
    match k
    case Draining(_, _, _, ws) => ws
    case Ready(_, _, ws) => ws
    case _ => []
  }

  /** Within an order, later rows have larger positions. */
  ghost predicate Ascending(rows: seq<OutboxRow>) {
    forall i, j | 0 <= i < j < |rows| && rows[i].event.orderId == rows[j].event.orderId ::
      rows[i].position < rows[j].position
  }

  /** As `insertOutbox` writes it: nothing is delivered yet. */
  predicate Undelivered(r: OutboxRow) {
    r == FreshRow(r.position, r.event, r.nextAttemptAt)
  }

  /** Undelivered rows that drew their positions before `next`. */
  ghost predicate Below(rows: seq<OutboxRow>, next: nat) {
    forall i | 0 <= i < |rows| :: rows[i].position < next && Undelivered(rows[i])
  }

  ghost predicate RowsOf(rows: seq<OutboxRow>, o: Option<OrderId>) {
    forall i | 0 <= i < |rows| :: o == Some(rows[i].event.orderId)
  }

  ghost predicate PositionsOf(s: Sys, k: Worker) {
    var rows := Appends(StagedBy(k));
    Ascending(s.tables.outbox + rows) && Below(rows, s.nextPosition) && RowsOf(rows, LockOf(k))
  }

  ghost predicate PositionsOk(s: Sys) {
    && Ascending(s.tables.outbox) && Below(s.tables.outbox, s.nextPosition)
    && forall w | 0 <= w < |s.workers| :: PositionsOf(s, s.workers[w])
  }

  lemma {:induction false} AppendsOneMore(ws: seq<Write>, w: Write)
    ensures Appends(ws + [w]) == if w.Append? then Appends(ws) + [w.entry] else Appends(ws)
  {
  }

  lemma {:induction false} OutboxOfExecAll(t: Tables, ws: seq<Write>)
    ensures ExecAll(t, ws).outbox == t.outbox + Appends(ws)
  {
    if ws != [] {
      OutboxOfExecAll(t, ws[..|ws| - 1]);
    }
  }

  lemma {:induction false} AppendsAreLocal(o: OrderId, ws: seq<Write>)
    requires Local(o, ws)
    ensures RowsOf(Appends(ws), Some(o))
  {
    if ws != [] {
      AppendsAreLocal(o, ws[..|ws| - 1]);
      assert LocalWrite(o, ws[|ws| - 1]);
    }
  }

  /** A row that draws the next position goes last. */
  lemma DrawsNext(rows: seq<OutboxRow>, row: OutboxRow, next: nat)
    requires Ascending(rows) && Below(rows, next) && row.position == next && Undelivered(row)
    ensures Ascending(rows + [row]) && Below(rows + [row], next + 1)
  {
  }

  /**
   What a step does to positions: the outbox grows by what the worker had staged, or the
   worker stages rows that draw positions from `s.nextPosition` on.
   */
  ghost predicate DrawStep(s: Sys, w: nat, s': Sys) {
    && w < |s.workers| == |s'.workers|
    && (forall v | 0 <= v < |s.workers| && v != w :: s'.workers[v] == s.workers[v])
    && var was, now := Appends(StagedBy(s.workers[w])), Appends(StagedBy(s'.workers[w]));
       || (s'.nextPosition == s.nextPosition && s'.tables.outbox == s.tables.outbox + was && now == [])
       || (&& s'.tables.outbox == s.tables.outbox
           && if s'.nextPosition == s.nextPosition
              then now == [] || (now == was && LockOf(s'.workers[w]) == LockOf(s.workers[w]))
              else
                && s'.nextPosition == s.nextPosition + 1
                && |now| == |was| + 1 && now[..|was|] == was && now[|was|].position == s.nextPosition
                && Undelivered(now[|was|])
                && LockOf(s.workers[w]) == LockOf(s'.workers[w]) == Some(now[|was|].event.orderId))
  }

  function RowsOfWrite(w: Write): seq<OutboxRow> {
    if w.Append? then [w.entry] else []
  }

  lemma AppendsOfFew(a: Write, b: Write, c: Write)
    ensures Appends([a]) == RowsOfWrite(a)
    ensures Appends([a, b]) == RowsOfWrite(a) + RowsOfWrite(b)
    ensures Appends([a, b, c]) == RowsOfWrite(a) + RowsOfWrite(b) + RowsOfWrite(c)
  {
    AppendsOneMore([], a);
    AppendsOneMore([] + [a], b);
    AppendsOneMore(([] + [a]) + [b], c);
    assert [a] == [] + [a] && [a, b] == ([] + [a]) + [b] && [a, b, c] == (([] + [a]) + [b]) + [c];
  }

  /** A worker that holds an order's lock and had staged nothing stages one notification of it, or none. */
  lemma FirstDraw(s: Sys, w: nat, s': Sys, k': Worker, drew: bool)
    requires w < |s.workers| && s'.workers == s.workers[w := k'] && s'.tables == s.tables
    requires s.workers[w].Deciding? && LockOf(k') == LockOf(s.workers[w])
    requires s'.nextPosition == s.nextPosition + if drew then 1 else 0
    requires var rows := Appends(StagedBy(k'));
      if drew then
        && |rows| == 1 && rows[0].position == s.nextPosition && Undelivered(rows[0])
        && LockOf(k') == Some(rows[0].event.orderId)
      else rows == []
    ensures DrawStep(s, w, s')
  {
  }

  lemma StageStepDraws(s: Sys, w: nat, e: Step, at: int, state: OrderState)
    requires w < |s.workers| && s.workers[w] == Deciding(StepJob(e, at), state)
    ensures DrawStep(s, w, StageStep(s, w, e, at, state))
  {
    var s' := StageStep(s, w, e, at, state);
    var put := PutOrder(e.orderId, Written(RowIn(s.tables, e.orderId), e));
    AppendsOfFew(put, Append(FreshRow(s.nextPosition, e, at)), put);
    AppendsOfFew(PutPending(KeyOf(e), PendingRow(e, at)), put, put);
    FirstDraw(s, w, s', s'.workers[w], Decide(state, e.planId, SeqOf(e)) == Apply);
  }

  lemma StageAbortDraws(s: Sys, w: nat, e: Abort, at: int, state: OrderState)
    requires w < |s.workers| && s.workers[w] == Deciding(AbortJob(e, at), state)
    ensures DrawStep(s, w, StageAbort(s, w, e, at, state))
  {
    var s' := StageAbort(s, w, e, at, state);
    var gone := DeletePending(PlanKeys(s.tables.pending, e.orderId, e.planId));
    var row, drew := RowIn(s.tables, e.orderId), DecideAbort(state, e.planId) == Apply;
    if drew && row.Some? {
      var put := PutOrder(e.orderId, row.value.(status := StatusAborted));
      AppendsOfFew(put, Append(FreshRow(s.nextPosition, e, at)), gone);
      assert StagedBy(s'.workers[w]) == [put, Append(FreshRow(s.nextPosition, e, at)), gone];
      FirstDraw(s, w, s', s'.workers[w], true);
    } else {
      AppendsOfFew(PutOrder(e.orderId, OrderRow(e.planId, UserOf(e), StatusAborted, None, 0)), gone, gone);
      FirstDraw(s, w, s', s'.workers[w], false);
    }
  }

  lemma StageDraws(s: Sys, w: nat)
    requires Enabled(s, Stage(w))
    ensures DrawStep(s, w, Act(s, Stage(w)))
  {
    match s.workers[w].job
    case StepJob(e, at) => StageStepDraws(s, w, e, at, s.workers[w].state);
    case AbortJob(e, at) => StageAbortDraws(s, w, e, at, s.workers[w].state);
  }

  lemma {:induction false} TakeWritesAppend(
    ws: seq<Write>, k: PendingKey, row: Option<OrderRow>, f: Step, entry: OutboxRow)
    ensures Appends(ws + TakeWrites(k, row, f, entry)) == Appends(ws) + [entry]
  {
    var x, y, z := DeletePending({k}), PutOrder(k.orderId, Written(row, f)), Append(entry);
    assert ws + TakeWrites(k, row, f, entry) == ((ws + [x]) + [y]) + [z];
    AppendsOneMore(ws, x);
    AppendsOneMore(ws + [x], y);
    AppendsOneMore((ws + [x]) + [y], z);
  }

  lemma BufferedUnderItsOrder(s: Sys, k: PendingKey)
    requires Inv(s) && k in s.tables.pending
    ensures s.tables.pending[k].event.orderId == k.orderId
  {
    SerialIsGood(k.orderId, s.serial);
    assert View(s.tables, k.orderId) == RunSerial(k.orderId, s.serial);
    assert k in View(s.tables, k.orderId).pending;
  }

  lemma DrainDraws(s: Sys, w: nat)
    requires Inv(s) && Enabled(s, DrainOne(w))
    ensures DrawStep(s, w, Act(s, DrainOne(w)))
  {
    var k := s.workers[w];
    var key := PendingKey(k.step.orderId, k.step.planId, k.next);
    if key in s.tables.pending {
      var f := s.tables.pending[key].event;
      var row := RowIn(ExecAll(s.tables, k.staged), k.step.orderId);
      BufferedUnderItsOrder(s, key);
      TakeWritesAppend(k.staged, key, row, f, FreshRow(s.nextPosition, f, k.at));
    }
  }

  lemma ActDraws(s: Sys, a: Action)
    requires Inv(s) && Enabled(s, a)
    ensures DrawStep(s, a.w, Act(s, a))
  {
    match a
    case Stage(w) => StageDraws(s, w);
    case DrainOne(w) => DrainDraws(s, w);
    case Commit(w) =>
      if s.workers[w].Ready? {
        OutboxOfExecAll(s.tables, s.workers[w].staged);
      }
    case _ =>
  }

  /** Rows of different orders may be committed between each other. */
  lemma AscendingAround(
    out: seq<OutboxRow>, mine: seq<OutboxRow>, others: seq<OutboxRow>, p: Option<OrderId>, q: Option<OrderId>)
    requires Ascending(out + mine) && Ascending(out + others)
    requires RowsOf(mine, p) && RowsOf(others, q) && (p.None? || p != q)
    ensures Ascending((out + mine) + others)
  {
    var all, om, oo := (out + mine) + others, out + mine, out + others;
    forall i, j | 0 <= i < j < |all| && all[i].event.orderId == all[j].event.orderId
      ensures all[i].position < all[j].position
    {
      if j < |om| {
        assert all[i] == om[i] && all[j] == om[j];
      } else {
        var j' := j - |mine|;
        assert all[j] == others[j - |om|] == oo[j'];
        if i < |out| {
          assert all[i] == oo[i];
        } else if |om| <= i {
          assert all[i] == others[i - |om|] == oo[i - |mine|];
        }
      }
    }
  }

  lemma AscendingFront(rows: seq<OutboxRow>, more: seq<OutboxRow>)
    requires Ascending(rows + more)
    ensures Ascending(rows)
  {
    assert forall i | 0 <= i < |rows| :: (rows + more)[i] == rows[i];
  }

  lemma DrawKeepsPositions(s: Sys, w: nat, s': Sys)
    requires Exclusive(s) && PositionsOk(s) && DrawStep(s, w, s')
    ensures PositionsOk(s')
  {
    var out, was, now := s.tables.outbox, Appends(StagedBy(s.workers[w])), Appends(StagedBy(s'.workers[w]));
    assert PositionsOf(s, s.workers[w]);
    AscendingFront(out, was);
    if now != [] && s'.nextPosition != s.nextPosition {
      assert out + now == (out + was) + [now[|was|]];
      assert now == was + [now[|was|]];
      DrawsNext(out + was, now[|was|], s.nextPosition);
    }
    assert s'.tables.outbox + [] == s'.tables.outbox;
    forall v | 0 <= v < |s'.workers| ensures PositionsOf(s', s'.workers[v]) {
      if v != w {
        OthersKeepPositions(s, w, s', v);
      }
    }
  }

  lemma OthersKeepPositions(s: Sys, w: nat, s': Sys, v: nat)
    requires Exclusive(s) && PositionsOk(s) && DrawStep(s, w, s') && v < |s.workers| && v != w
    ensures PositionsOf(s', s'.workers[v])
  {
    var out, was := s.tables.outbox, Appends(StagedBy(s.workers[w]));
    assert PositionsOf(s, s.workers[v]) && PositionsOf(s, s.workers[w]);
    assert LockOf(s.workers[v]).None? || LockOf(s.workers[v]) != LockOf(s.workers[w]);
    if s'.tables.outbox != out {
      AscendingAround(out, was, Appends(StagedBy(s.workers[v])), LockOf(s.workers[w]), LockOf(s.workers[v]));
    }
  }

  lemma {:induction false} PositionsHold(n: nat, actions: seq<Action>, states: seq<Sys>, i: nat)
    requires IsRun(n, actions, states) && i < |states|
    ensures PositionsOk(states[i])
  {
    if i > 0 {
      PositionsHold(n, actions, states, i - 1);
      RunKeepsInv(n, actions, states, i - 1);
      ActDraws(states[i - 1], actions[i - 1]);
      DrawKeepsPositions(states[i - 1], actions[i - 1].w, states[i]);
    }
  }

  /**
   Positions are drawn when a row is staged and rows of different orders commit in any
   order, yet within one order the position order is the commit order, gaps and all.
   */
  lemma PositionsFollowCommits(n: nat, actions: seq<Action>, states: seq<Sys>, i: nat)
    requires IsRun(n, actions, states) && i < |states|
    ensures var rows := states[i].tables.outbox;
      forall a, b | 0 <= a < b < |rows| && rows[a].event.orderId == rows[b].event.orderId ::
        rows[a].position < rows[b].position
  {
    PositionsHold(n, actions, states, i);
  }
}

/**
 A serial order for every committed transaction. Commit order is one, except for deliveries
 that found their event buffered and committed after a sweep had removed it: those wrote
 nothing, and their place is before that sweep, where they do nothing either.
 */
module SerialOrder {
  import opened Models
  import opened Sequencing
  import opened Ledger
  import opened Tables
  import opened Serial

  /** The transaction that the step commits, whatever it found. */
  function CommitOf(s: Sys, a: Action): seq<Txn> {
    if !a.Commit? || |s.workers| <= a.w then []
    else
      match s.workers[a.w]
      case Ready(j, _, _) => [Ran(j)]
      case Found(e, at) => [Ran(StepJob(e, at))]
      case Sweeping(keys) => [Removed(keys)]
      case _ => []
  }

  /** All that the first `i` steps committed, in commit order. */
  ghost function EveryCommit(actions: seq<Action>, states: seq<Sys>, i: nat): seq<Txn>
    requires i <= |actions| < |states|
  {
    if i == 0 then [] else EveryCommit(actions, states, i - 1) + CommitOf(states[i - 1], actions[i - 1])
  }

  /* ----- transactions that do nothing at their place ----- */

  /** Running the job after the first `p` transactions changes nothing. */
  ghost predicate IdleAt(ts: seq<Txn>, j: Job, p: nat) {
    && p <= |ts|
    && RunTxn(OrderOf(j), RunSerial(OrderOf(j), ts[..p]), Ran(j)) == RunSerial(OrderOf(j), ts[..p])
  }

  ghost predicate HasPlace(ts: seq<Txn>, j: Job) {
    exists p :: IdleAt(ts, j, p)
  }

  function Inserted(ts: seq<Txn>, p: nat, t: Txn): seq<Txn>
    requires p <= |ts|
  {
    ts[..p] + [t] + ts[p..]
  }

  lemma {:induction false} RunOneMore(o: OrderId, ts: seq<Txn>, t: Txn)
    ensures RunSerial(o, ts + [t]) == RunTxn(o, RunSerial(o, ts), t)
  {
    assert (ts + [t])[..|ts|] == ts;
  }

  lemma {:induction false} IdleForAll(ts: seq<Txn>, j: Job, p: nat, o: OrderId)
    requires IdleAt(ts, j, p)
    ensures RunTxn(o, RunSerial(o, ts[..p]), Ran(j)) == RunSerial(o, ts[..p])
  {
  }

  /** From its place on, the inserted job makes no difference to anyone. */
  lemma {:induction false} InsertedIsIdle(o: OrderId, ts: seq<Txn>, j: Job, p: nat, n: nat)
    requires IdleAt(ts, j, p) && p <= n <= |ts|
    ensures RunSerial(o, Inserted(ts, p, Ran(j))[..n + 1]) == RunSerial(o, ts[..n])
    decreases n
  {
    var more := Inserted(ts, p, Ran(j));
    if n == p {
      assert more[..p + 1] == ts[..p] + [Ran(j)];
      RunOneMore(o, ts[..p], Ran(j));
      IdleForAll(ts, j, p, o);
    } else {
      InsertedIsIdle(o, ts, j, p, n - 1);
      assert more[..n + 1] == more[..n] + [ts[n - 1]];
      assert ts[..n] == ts[..n - 1] + [ts[n - 1]];
      RunOneMore(o, more[..n], ts[n - 1]);
      RunOneMore(o, ts[..n - 1], ts[n - 1]);
    }
  }

  /** Places survive what is inserted before or after them. */
  lemma {:induction false} PlaceStays(ts: seq<Txn>, j: Job, p: nat, k: Job)
    requires IdleAt(ts, j, p) && HasPlace(ts, k)
    ensures HasPlace(Inserted(ts, p, Ran(j)), k)
  {
    var q: nat :| IdleAt(ts, k, q);
    var more := Inserted(ts, p, Ran(j));
    if q < p {
      assert more[..q] == ts[..q];
      assert IdleAt(more, k, q);
    } else {
      InsertedIsIdle(OrderOf(k), ts, j, p, q);
      assert IdleAt(more, k, q + 1);
    }
  }

  lemma PlaceStaysUnder(ts: seq<Txn>, more: seq<Txn>, k: Job)
    requires HasPlace(ts, k)
    ensures HasPlace(ts + more, k)
  {
    var q: nat :| IdleAt(ts, k, q);
    assert (ts + more)[..q] == ts[..q];
    assert IdleAt(ts + more, k, q);
  }

  /* ----- runs ----- */

  /** `ts` runs to the tables, and has a place for every delivery that found its event buffered. */
  ghost predicate RunsTo(s: Sys, ts: seq<Txn>) {
    && (forall o :: RunSerial(o, ts) == View(s.tables, o))
    && (forall w | 0 <= w < |s.workers| && s.workers[w].Found? ::
          HasPlace(ts, StepJob(s.workers[w].step, s.workers[w].at)))
  }

  /** A step changes each order's view as the transaction that it commits prescribes. */
  lemma {:induction false} ActRuns(s: Sys, a: Action, o: OrderId)
    requires Inv(s) && Enabled(s, a)
    ensures Commits(s, a) == [] ==> View(Act(s, a).tables, o) == View(s.tables, o)
    ensures Commits(s, a) != [] ==> View(Act(s, a).tables, o) == RunTxn(o, View(s.tables, o), Commits(s, a)[0])
  {
    ActKeepsInv(s, a);
    ActLogsCommits(s, a);
    assert View(Act(s, a).tables, o) == RunSerial(o, s.serial + Commits(s, a));
    assert View(s.tables, o) == RunSerial(o, s.serial);
    if Commits(s, a) != [] {
      assert Commits(s, a) == [Commits(s, a)[0]];
      RunOneMore(o, s.serial, Commits(s, a)[0]);
    } else {
      assert s.serial + [] == s.serial;
    }
  }

  /** A worker that finds its event buffered does nothing at that moment. */
  lemma FindsPlace(s: Sys, a: Action, ts: seq<Txn>)
    requires Inv(s) && Enabled(s, a) && RunsTo(s, ts)
    requires var k := Act(s, a).workers[a.w]; k.Found?
    ensures var k := Act(s, a).workers[a.w]; HasPlace(ts, StepJob(k.step, k.at))
  {
    var k := Act(s, a).workers[a.w];
    assert WorkerOk(s.tables, s.workers[a.w]);
    assert ts[..|ts|] == ts;
    assert RunSerial(k.step.orderId, ts) == View(s.tables, k.step.orderId);
    assert KeyOf(k.step) in View(s.tables, k.step.orderId).pending;
    assert IdleAt(ts, StepJob(k.step, k.at), |ts|);
  }

  lemma OthersFound(s: Sys, a: Action, v: nat)
    requires Enabled(s, a) && v < |s.workers| && v != a.w
    ensures |Act(s, a).workers| == |s.workers| && Act(s, a).workers[v] == s.workers[v]
  {
  }

  /** A step whose commit goes last. */
  lemma CommitsLast(s: Sys, a: Action, ts: seq<Txn>)
    requires Inv(s) && Enabled(s, a) && RunsTo(s, ts)
    ensures RunsTo(Act(s, a), ts + Commits(s, a))
  {
    var s', more := Act(s, a), ts + Commits(s, a);
    forall o ensures RunSerial(o, more) == View(s'.tables, o) {
      ActRuns(s, a, o);
      if Commits(s, a) == [] {
        assert more == ts;
      } else {
        assert Commits(s, a) == [Commits(s, a)[0]];
        RunOneMore(o, ts, Commits(s, a)[0]);
      }
    }
    forall w | 0 <= w < |s'.workers| && s'.workers[w].Found?
      ensures HasPlace(more, StepJob(s'.workers[w].step, s'.workers[w].at))
    {
      if w == a.w {
        FindsPlace(s, a, ts);
      } else {
        OthersFound(s, a, w);
      }
      PlaceStaysUnder(ts, Commits(s, a), StepJob(s'.workers[w].step, s'.workers[w].at));
    }
  }

  /** A commit that goes to the place where the delivery found its event. */
  lemma CommitsEarlier(s: Sys, a: Action, ts: seq<Txn>) returns (more: seq<Txn>)
    requires Inv(s) && Enabled(s, a) && RunsTo(s, ts)
    requires a.Commit? && s.workers[a.w].Found? && Commits(s, a) == []
    ensures RunsTo(Act(s, a), more) && multiset(more) == multiset(ts + CommitOf(s, a))
  {
    var s', j := Act(s, a), StepJob(s.workers[a.w].step, s.workers[a.w].at);
    var p: nat :| IdleAt(ts, j, p);
    more := Inserted(ts, p, Ran(j));
    assert ts == ts[..p] + ts[p..];
    assert s'.tables == s.tables;
    forall o ensures RunSerial(o, more) == View(s'.tables, o) {
      InsertedIsIdle(o, ts, j, p, |ts|);
      assert more[..|ts| + 1] == more && ts[..|ts|] == ts;
    }
    forall w | 0 <= w < |s'.workers| && s'.workers[w].Found?
      ensures HasPlace(more, StepJob(s'.workers[w].step, s'.workers[w].at))
    {
      PlaceStays(ts, j, p, StepJob(s'.workers[w].step, s'.workers[w].at));
    }
  }

  /**
   Every commit has its place: in every state of every interleaving, some order of all the
   committed transactions - each of them once, whatever it found - runs atomically to the
   tables of every order.
   */
  lemma {:induction false} EveryCommitHasItsPlace(n: nat, actions: seq<Action>, states: seq<Sys>, i: nat)
    returns (ts: seq<Txn>)
    requires IsRun(n, actions, states) && i < |states|
    ensures multiset(ts) == multiset(EveryCommit(actions, states, i))
    ensures RunsTo(states[i], ts)
    ensures forall o :: RunSerial(o, ts) == View(states[i].tables, o)
  {
    if i == 0 {
      ts := [];
      RunKeepsInv(n, actions, states, 0);
    } else {
      var s, a := states[i - 1], actions[i - 1];
      var before := EveryCommitHasItsPlace(n, actions, states, i - 1);
      RunKeepsInv(n, actions, states, i - 1);
      if a.Commit? && s.workers[a.w].Found? && Commits(s, a) == [] {
        ts := CommitsEarlier(s, a, before);
      } else {
        CommitsLast(s, a, before);
        ts := before + Commits(s, a);
      }
    }
  }

  /* ----- commit order alone does not do ----- */

  /** Reached by some run, with these commits. */
  ghost predicate Reaches(s: Sys, all: seq<Txn>) {
    exists n, actions, states ::
      IsRun(n, actions, states) && states[|actions|] == s && EveryCommit(actions, states, |actions|) == all
  }

  lemma {:induction false} CommitsOfPrefix(
    actions: seq<Action>, states: seq<Sys>, actions': seq<Action>, states': seq<Sys>, i: nat)
    requires i <= |actions| < |states| && actions <= actions' && states <= states' && |actions'| < |states'|
    ensures EveryCommit(actions', states', i) == EveryCommit(actions, states, i)
  {
    if i > 0 {
      CommitsOfPrefix(actions, states, actions', states', i - 1);
    }
  }

  lemma RunGoesOn(n: nat, actions: seq<Action>, states: seq<Sys>, a: Action)
    requires IsRun(n, actions, states) && Enabled(states[|actions|], a)
    ensures IsRun(n, actions + [a], states + [Act(states[|actions|], a)])
  {
    var actions', states' := actions + [a], states + [Act(states[|actions|], a)];
    forall i | 0 <= i < |actions'|
      ensures Enabled(states'[i], actions'[i]) && states'[i + 1] == Act(states'[i], actions'[i])
    {
      if i < |actions| {
        assert states'[i] == states[i] && actions'[i] == actions[i];
      }
    }
  }

  lemma Goes(s: Sys, all: seq<Txn>, a: Action) returns (s': Sys)
    requires Reaches(s, all) && Enabled(s, a)
    ensures s' == Act(s, a) && Reaches(s', all + CommitOf(s, a))
  {
    var n, actions, states :|
      IsRun(n, actions, states) && states[|actions|] == s && EveryCommit(actions, states, |actions|) == all;
    s' := Act(s, a);
    var actions', states' := actions + [a], states + [s'];
    RunGoesOn(n, actions, states, a);
    CommitsOfPrefix(actions, states, actions', states', |actions|);
    assert EveryCommit(actions', states', |actions'|) == all + CommitOf(s, a);
    assert states'[|actions'|] == s';
  }

  /** The second event of a plan, without the first. */
  function Early(): Step {
    Event("e", InventoryValidated, "p", Some(2), Uuid(0), None, None)
  }

  const EARLY_JOB := StepJob(Early(), 0)

  /** Two workers, nothing under way, and no order exists. */
  predicate AtRest(s: Sys) {
    s.workers == [Idle, Idle] && s.tables.orders == map[]
  }

  lemma BeginsEarly(s: Sys)
    requires s.workers == [Idle, Idle]
    ensures Enabled(s, Begin(0, EARLY_JOB)) && Act(s, Begin(0, EARLY_JOB)) == s.(workers := [Waiting(EARLY_JOB), Idle])
  {
  }

  lemma LocksEarly(s: Sys)
    requires s.workers == [Waiting(EARLY_JOB), Idle]
    ensures Enabled(s, Lock(0)) && Act(s, Lock(0)) == s.(workers := [Holding(EARLY_JOB), Idle])
  {
  }

  lemma ReadsEarly(s: Sys)
    requires s.workers == [Holding(EARLY_JOB), Idle] && s.tables.orders == map[]
    ensures Enabled(s, Read(0)) && Act(s, Read(0)) == s.(workers := [Deciding(EARLY_JOB, Missing), Idle])
  {
  }

  /** The first worker is about to stage the early event of an order that does not exist. */
  lemma Decides(s: Sys, all: seq<Txn>) returns (s': Sys)
    requires Reaches(s, all) && AtRest(s)
    ensures Reaches(s', all) && s'.tables == s.tables && s'.workers == [Deciding(EARLY_JOB, Missing), Idle]
  {
    assert all + [] == all;
    BeginsEarly(s);
    var a := Goes(s, all, Begin(0, EARLY_JOB));
    LocksEarly(a);
    var b := Goes(a, all, Lock(0));
    ReadsEarly(b);
    s' := Goes(b, all, Read(0));
  }

  function EarlyFound(t: Tables): Worker {
    if KeyOf(Early()) in t.pending then Found(Early(), 0)
    else Ready(EARLY_JOB, 0, [PutPending(KeyOf(Early()), PendingRow(Early(), 0))])
  }

  lemma StagesEarly(s: Sys)
    requires s.workers == [Deciding(EARLY_JOB, Missing), Idle]
    ensures Enabled(s, Stage(0)) && CommitOf(s, Stage(0)) == []
    ensures Act(s, Stage(0)) == s.(workers := [EarlyFound(s.tables), Idle])
  {
  }

  /** The first worker delivers the early event, up to its commit. */
  lemma Delivers(s: Sys, all: seq<Txn>) returns (s': Sys)
    requires Reaches(s, all) && AtRest(s)
    ensures Reaches(s', all) && s'.tables == s.tables && s'.workers == [EarlyFound(s.tables), Idle]
  {
    var a := Decides(s, all);
    StagesEarly(a);
    assert all + [] == all;
    s' := Goes(a, all, Stage(0));
  }

  lemma Starts()
    ensures Reaches(Init(2), []) && AtRest(Init(2)) && Init(2).tables.pending == map[]
  {
    var s0 := Init(2);
    assert IsRun(2, [], [s0]) && EveryCommit([], [s0], 0) == [];
  }

  lemma CommitsEarly(s: Sys)
    requires s.workers == [EarlyFound(s.tables), Idle] && s.tables.orders == map[] && s.tables.pending == map[]
    ensures Enabled(s, Commit(0)) && CommitOf(s, Commit(0)) == [Ran(EARLY_JOB)] && AtRest(Act(s, Commit(0)))
    ensures Act(s, Commit(0)).tables.pending == map[KeyOf(Early()) := PendingRow(Early(), 0)]
  {
    var put := PutPending(KeyOf(Early()), PendingRow(Early(), 0));
    assert [put][..0] == [] && ExecAll(s.tables, [put]) == Exec(s.tables, put);
  }

  /** An event comes early, and is buffered. */
  lemma Buffered() returns (s: Sys)
    ensures Reaches(s, [Ran(EARLY_JOB)]) && AtRest(s)
    ensures s.tables.pending == map[KeyOf(Early()) := PendingRow(Early(), 0)]
  {
    Starts();
    var delivered := Delivers(Init(2), []);
    CommitsEarly(delivered);
    s := Goes(delivered, [], Commit(0));
    assert [] + [Ran(EARLY_JOB)] == [Ran(EARLY_JOB)];
  }

  lemma SelectsEarly(s: Sys, k: PendingKey)
    requires s.workers == [Found(Early(), 0), Idle] && s.tables.pending.Keys == {k}
    ensures Enabled(s, SelectRows(1, {k}))
    ensures Act(s, SelectRows(1, {k})) == s.(workers := [Found(Early(), 0), Sweeping({k})])
  {
  }

  lemma RemovesEarly(s: Sys, k: PendingKey)
    requires s.workers == [Found(Early(), 0), Sweeping({k})] && s.tables.pending.Keys == {k}
    ensures Enabled(s, Commit(1)) && CommitOf(s, Commit(1)) == [Removed({k})]
    ensures Act(s, Commit(1)).workers == [Found(Early(), 0), Idle] && Act(s, Commit(1)).tables.pending == map[]
  {
  }

  lemma Sweeps(s: Sys, all: seq<Txn>, k: PendingKey) returns (s': Sys)
    requires Reaches(s, all) && s.workers == [Found(Early(), 0), Idle] && s.tables.pending.Keys == {k}
    ensures Reaches(s', all + [Removed({k})])
    ensures s'.workers == [Found(Early(), 0), Idle] && s'.tables.pending == map[]
  {
    assert all + [] == all;
    SelectsEarly(s, k);
    var a := Goes(s, all, SelectRows(1, {k}));
    RemovesEarly(a, k);
    s' := Goes(a, all, Commit(1));
  }

  /** While another delivery has found it, a sweep removes it. */
  lemma FoundAndSwept() returns (s: Sys)
    ensures Reaches(s, [Ran(EARLY_JOB)] + [Removed({KeyOf(Early())})])
    ensures s.workers == [Found(Early(), 0), Idle] && s.tables.pending == map[]
  {
    var a := Buffered();
    var b := Delivers(a, [Ran(EARLY_JOB)]);
    s := Sweeps(b, [Ran(EARLY_JOB)], KeyOf(Early()));
  }

  lemma {:induction false} RunThree(o: OrderId, a: Txn, b: Txn, c: Txn)
    ensures RunSerial(o, [a] + [b] + [c]) == RunTxn(o, RunTxn(o, RunTxn(o, EMPTY, a), b), c)
  {
    assert [] + [a] == [a];
    RunOneMore(o, [], a);
    RunOneMore(o, [a], b);
    RunOneMore(o, [a] + [b], c);
  }

  lemma InCommitOrder()
    ensures KeyOf(Early()) in
            RunSerial(Early().orderId, [Ran(EARLY_JOB)] + [Removed({KeyOf(Early())})] + [Ran(EARLY_JOB)]).pending
  {
    var o, b := Early().orderId, Removed({KeyOf(Early())});
    RunThree(o, Ran(EARLY_JOB), b, Ran(EARLY_JOB));
    BuffersEarly(EMPTY);
    BuffersEarly(RunTxn(o, RunTxn(o, EMPTY, Ran(EARLY_JOB)), b));
  }

  lemma BuffersEarly(l: Ledger)
    requires l.row.None?
    ensures var l' := RunTxn(Early().orderId, l, Ran(EARLY_JOB)); KeyOf(Early()) in l'.pending && l'.row.None?
  {
  }

  /**
   An event comes early and is buffered; a second delivery of it finds it there; a sweep
   removes it; and then the second delivery commits. In commit order that delivery would
   have buffered the event again.
   */
  lemma CommitOrderFails()
    ensures exists s, all, o :: Reaches(s, all) && RunSerial(o, all) != View(s.tables, o)
  {
    var all := [Ran(EARLY_JOB)] + [Removed({KeyOf(Early())})];
    var s := FoundAndSwept();
    var t := Goes(s, all, Commit(0));
    InCommitOrder();
    assert KeyOf(Early()) !in View(t.tables, Early().orderId).pending;
  }
}

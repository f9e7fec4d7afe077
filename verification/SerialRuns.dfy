/** Every serial order happens: one worker alone can run any transactions, one after the other. */
module SerialRuns {
  import opened Models
  import opened Sequencing
  import opened Ledger
  import opened Tables
  import opened Serial
  import opened SerialOrder

  /** Some run with one worker leads here, and has committed these transactions. */
  ghost predicate Alone(s: Sys, ts: seq<Txn>) {
    Reaches(s, ts) && s.serial == ts && |s.workers| == 1
  }

  lemma AloneGoes(s: Sys, ts: seq<Txn>, a: Action) returns (s': Sys)
    requires Alone(s, ts) && Enabled(s, a) && CommitOf(s, a) == Commits(s, a)
    ensures s' == Act(s, a) && Alone(s', ts + CommitOf(s, a))
  {
    s' := Goes(s, ts, a);
    ActLogsCommits(s, a);
    OneWorkerStays(s, a);
  }

  lemma OneWorkerStays(s: Sys, a: Action)
    requires Enabled(s, a)
    ensures |Act(s, a).workers| == |s.workers|
  {
  }

  /** A step that commits nothing. */
  lemma Proceeds(s: Sys, ts: seq<Txn>, a: Action) returns (s': Sys)
    requires Alone(s, ts) && Enabled(s, a) && !a.Commit?
    ensures s' == Act(s, a) && Alone(s', ts)
  {
    assert ts + [] == ts;
    s' := AloneGoes(s, ts, a);
  }

  /** The worker holds the order, and has read its state. */
  lemma Reads(s: Sys, ts: seq<Txn>, j: Job) returns (s': Sys)
    requires Alone(s, ts) && s.workers == [Idle]
    ensures Alone(s', ts) && s'.tables == s.tables
    ensures s'.workers == [Deciding(j, StateOf(View(s.tables, OrderOf(j))))]
  {
    var a := Proceeds(s, ts, Begin(0, j));
    var b := Proceeds(a, ts, Lock(0));
    var c := Proceeds(b, ts, Read(0));
    s' := c;
  }

  /** The numbers from `next` on that are buffered. */
  ghost function Above(t: Tables, next: int): set<PendingKey> {
    set k | k in t.pending && next <= k.seqId
  }

  lemma {:induction false} Drains(s: Sys, ts: seq<Txn>, e: Step, at: int, next: int, ws: seq<Write>) returns (s': Sys)
    requires Alone(s, ts) && s.workers == [Draining(e, at, next, ws)]
    ensures Alone(s', ts) && s'.tables == s.tables
    ensures exists end, staged :: s'.workers == [Ready(StepJob(e, at), end, staged)]
    decreases Above(s.tables, next)
  {
    var k := PendingKey(e.orderId, e.planId, next);
    var a := Proceeds(s, ts, DrainOne(0));
    if k in s.tables.pending {
      assert k in Above(s.tables, next) && k !in Above(s.tables, next + 1);
      assert Above(s.tables, next + 1) < Above(s.tables, next);
      var f := s.tables.pending[k].event;
      var row := RowIn(ExecAll(s.tables, ws), e.orderId);
      s' := Drains(a, ts, e, at, next + 1, ws + TakeWrites(k, row, f, FreshRow(s.nextPosition, f, at)));
    } else {
      s' := a;
      assert s'.workers == [Ready(StepJob(e, at), next, ws)];
    }
  }

  /** All statements are done; what is left is the commit. */
  ghost predicate MayCommit(s: Sys, j: Job) {
    || (exists next, ws :: s.workers == [Ready(j, next, ws)])
    || (exists e: Step, at :: s.workers == [Found(e, at)] && j == StepJob(e, at) && KeyOf(e) in s.tables.pending)
  }

  lemma Stages(s: Sys, ts: seq<Txn>, j: Job) returns (s': Sys)
    requires Alone(s, ts) && s.workers == [Deciding(j, StateOf(View(s.tables, OrderOf(j))))]
    ensures Alone(s', ts) && s'.tables == s.tables && MayCommit(s', j)
  {
    var a := Proceeds(s, ts, Stage(0));
    if a.workers[0].Draining? {
      var k := a.workers[0];
      assert a.workers == [k] && k == Draining(k.step, k.at, k.next, k.staged) && j == StepJob(k.step, k.at);
      s' := Drains(a, ts, k.step, k.at, k.next, k.staged);
    } else {
      s' := a;
      assert s'.workers == [s'.workers[0]];
    }
  }

  lemma CommitsJob(s: Sys, ts: seq<Txn>, j: Job) returns (s': Sys)
    requires Alone(s, ts) && MayCommit(s, j)
    ensures Alone(s', ts + [Ran(j)]) && s'.workers == [Idle]
  {
    s' := AloneGoes(s, ts, Commit(0));
  }

  function AllRan(js: seq<Job>): (ts: seq<Txn>)
    ensures |ts| == |js| && forall i | 0 <= i < |js| :: ts[i] == Ran(js[i])
  {
    seq(|js|, i requires 0 <= i < |js| => Ran(js[i]))
  }

  lemma AllRanOneMore(js: seq<Job>, j: Job)
    ensures AllRan(js + [j]) == AllRan(js) + [Ran(j)]
  {
  }

  /** One transaction, from its beginning to its commit. */
  lemma RunsOne(s: Sys, ts: seq<Txn>, j: Job) returns (s': Sys)
    requires Alone(s, ts) && s.workers == [Idle]
    ensures Alone(s', ts + [Ran(j)]) && s'.workers == [Idle]
  {
    var a := Reads(s, ts, j);
    var b := Stages(a, ts, j);
    s' := CommitsJob(b, ts, j);
  }

  lemma RunsMore(s: Sys, js: seq<Job>, j: Job) returns (s': Sys)
    requires Alone(s, AllRan(js)) && s.workers == [Idle]
    ensures Alone(s', AllRan(js + [j])) && s'.workers == [Idle]
  {
    s' := RunsOne(s, AllRan(js), j);
    AllRanOneMore(js, j);
  }

  lemma NothingRun() returns (s: Sys)
    ensures Alone(s, []) && s.workers == [Idle]
  {
    s := Init(1);
    assert IsRun(1, [], [s]) && EveryCommit([], [s], 0) == [];
  }

  lemma {:induction false} RunsAll(js: seq<Job>) returns (s: Sys)
    ensures Alone(s, AllRan(js)) && s.workers == [Idle]
  {
    if js == [] {
      s := NothingRun();
      assert AllRan(js) == [];
    } else {
      var front, last := js[..|js| - 1], js[|js| - 1];
      var a := RunsAll(front);
      assert js == front + [last];
      s := RunsMore(a, front, last);
    }
  }

  /**
   For any list of deliveries and aborts, of any orders, there is a run that commits exactly
   these, in this order, and leaves each order as running them atomically does.
   */
  lemma EveryListIsRun(js: seq<Job>) returns (n: nat, actions: seq<Action>, states: seq<Sys>)
    ensures IsRun(n, actions, states) && Committed(actions, states, |actions|) == AllRan(js)
    ensures forall o :: View(states[|actions|].tables, o) == RunSerial(o, AllRan(js))
  {
    var s := RunsAll(js);
    n, actions, states :| IsRun(n, actions, states) && states[|actions|] == s
      && EveryCommit(actions, states, |actions|) == AllRan(js);
    SerialIsCommitted(n, actions, states, |actions|);
    RunKeepsInv(n, actions, states, |actions|);
  }
}

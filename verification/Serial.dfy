/**
 Concurrent transactions. Any number of workers run the store's transactions one
 statement at a time, interleaved in any way, together with sweeps that take no order
 lock; each may fail and roll back at any point. The advisory lock and the row locks
 make every interleaving serial.
 */
module Serial {
  import opened Models
  import opened Sequencing
  import opened Ledger
  import opened Tables
  import opened Transactions

  datatype Job = StepJob(step: Step, at: int) | AbortJob(abort: Abort, at: int)

  function OrderOf(j: Job): OrderId {
    match j
    case StepJob(e, _) => e.orderId
    case AbortJob(e, _) => e.orderId
  }

  /**
   Where a worker is in its transaction. `staged` are its writes: visible to itself only,
   until the commit. `next` is the seq the drain will ask for. `Found` is a step whose
   event turned out to be buffered already.
   */
  datatype Worker =
    | Idle
    | Waiting(job: Job)
    | Holding(job: Job)
    | Deciding(job: Job, state: OrderState)
    | Draining(step: Step, at: int, next: int, staged: seq<Write>)
    | Ready(job: Job, next: int, staged: seq<Write>)
    | Found(step: Step, at: int)
    | Sweeping(keys: set<PendingKey>)

  datatype Txn = Ran(job: Job) | Removed(keys: set<PendingKey>)

  /** `serial` lists the committed transactions in commit order. */
  datatype Sys = Sys(tables: Tables, nextPosition: nat, workers: seq<Worker>, serial: seq<Txn>)

  datatype Action =
    | Begin(w: nat, job: Job)
    | Lock(w: nat)
    | Read(w: nat)
    | Stage(w: nat)
    | DrainOne(w: nat)
    | Commit(w: nat)
    | Rollback(w: nat)
    | SelectRows(w: nat, keys: set<PendingKey>)

  function Init(n: nat): Sys {
    Sys(EMPTY_TABLES, 0, seq(n, _ => Idle), [])
  }

  /** The order whose advisory lock the worker holds: from the lock to the end of the transaction. */
  function LockOf(k: Worker): Option<OrderId> {
    match k
    case Holding(j) => Some(OrderOf(j))
    case Deciding(j, _) => Some(OrderOf(j))
    case Draining(e, _, _, _) => Some(e.orderId)
    case Ready(j, _, _) => Some(OrderOf(j))
    case Found(e, _) => Some(e.orderId)
    case _ => None
  }

  function Deleted(ws: seq<Write>): set<PendingKey> {
    if ws == [] then {}
    else
      Deleted(ws[..|ws| - 1]) + if ws[|ws| - 1].DeletePending? then ws[|ws| - 1].keys else {}
  }

  lemma {:induction false} DeletedOneMore(ws: seq<Write>, w: Write)
    ensures Deleted(ws + [w]) == Deleted(ws) + if w.DeletePending? then w.keys else {}
  {
  }

  /** The pending rows the worker has locked: those it deleted, or selected for update. */
  function Locked(k: Worker): set<PendingKey> {
    match k
    case Draining(_, _, _, staged) => Deleted(staged)
    case Ready(_, _, staged) => Deleted(staged)
    case Sweeping(keys) => keys
    case _ => {}
  }

  ghost predicate FreeFor(s: Sys, w: nat, keys: set<PendingKey>) {
    forall v | 0 <= v < |s.workers| && v != w :: Locked(s.workers[v]) !! keys
  }

  /**
   The rows that the worker's next statement deletes; it waits while another holds them.
   INSERT .. ON CONFLICT DO NOTHING does not wait for a row that is only locked.
   */
  function Touches(s: Sys, k: Worker): set<PendingKey> {
    match k
    case Deciding(AbortJob(e, _), state) =>
      if DecideAbort(state, e.planId) in {Apply, Tombstone} then PlanKeys(s.tables.pending, e.orderId, e.planId) else {}
    case Draining(e, _, next, _) => {PendingKey(e.orderId, e.planId, next)}
    case _ => {}
  }

  ghost predicate Enabled(s: Sys, a: Action) {
    && a.w < |s.workers|
    && var k := s.workers[a.w];
       match a
       case Begin(_, _) => k.Idle?
       case Lock(w) =>
         k.Waiting? && forall v | 0 <= v < |s.workers| && v != w :: LockOf(s.workers[v]) != Some(OrderOf(k.job))
       case Read(_) => k.Holding?
       case Stage(w) => k.Deciding? && FreeFor(s, w, Touches(s, k))
       case DrainOne(w) => k.Draining? && FreeFor(s, w, Touches(s, k))
       case Commit(_) => k.Ready? || k.Found? || k.Sweeping?
       case Rollback(_) => !k.Idle?
       case SelectRows(w, keys) => k.Idle? && keys <= s.tables.pending.Keys && FreeFor(s, w, keys)
  }

  function Move(s: Sys, w: nat, k: Worker): Sys
    requires w < |s.workers|
  {
    s.(workers := s.workers[w := k])
  }

  function StageStep(s: Sys, w: nat, e: Step, at: int, state: OrderState): Sys
    requires w < |s.workers|
  {
    match Decide(state, e.planId, SeqOf(e))
    case Apply =>
      var ws := [PutOrder(e.orderId, Written(RowIn(s.tables, e.orderId), e)), Append(FreshRow(s.nextPosition, e, at))];
      Move(s.(nextPosition := s.nextPosition + 1), w, Draining(e, at, SeqOf(e) + 1, ws))
    case Buffer =>
      if KeyOf(e) in s.tables.pending then Move(s, w, Found(e, at))
      else Move(s, w, Ready(StepJob(e, at), 0, [PutPending(KeyOf(e), PendingRow(e, at))]))
    case _ => Move(s, w, Ready(StepJob(e, at), 0, []))
  }

  function StageAbort(s: Sys, w: nat, e: Abort, at: int, state: OrderState): Sys
    requires w < |s.workers|
  {
    var gone := DeletePending(PlanKeys(s.tables.pending, e.orderId, e.planId));
    match DecideAbort(state, e.planId)
    case Apply =>
      var row := RowIn(s.tables, e.orderId);
      if row.None? then Move(s, w, Ready(AbortJob(e, at), 0, []))
      else
        var put := PutOrder(e.orderId, row.value.(status := StatusAborted));
        var ws := [put, Append(FreshRow(s.nextPosition, e, at)), gone];
        Move(s.(nextPosition := s.nextPosition + 1), w, Ready(AbortJob(e, at), 0, ws))
    case Tombstone =>
      var put := PutOrder(e.orderId, OrderRow(e.planId, UserOf(e), StatusAborted, None, 0));
      Move(s, w, Ready(AbortJob(e, at), 0, [put, gone]))
    case _ => Move(s, w, Ready(AbortJob(e, at), 0, []))
  }

  function DrainStatement(s: Sys, w: nat, e: Step, at: int, next: int, staged: seq<Write>): Sys
    requires w < |s.workers|
  {
    var k := PendingKey(e.orderId, e.planId, next);
    if k in s.tables.pending then
      var f := s.tables.pending[k].event;
      var row := RowIn(ExecAll(s.tables, staged), e.orderId);
      Move(s.(nextPosition := s.nextPosition + 1), w,
           Draining(e, at, next + 1, staged + TakeWrites(k, row, f, FreshRow(s.nextPosition, f, at))))
    else
      Move(s, w, Ready(StepJob(e, at), next, staged))
  }

  /** Deleting the buffered event `f`, writing the order and notifying, given the row as the worker sees it. */
  function TakeWrites(k: PendingKey, row: Option<OrderRow>, f: Step, entry: OutboxRow): seq<Write> {
    [DeletePending({k}), PutOrder(k.orderId, Written(row, f)), Append(entry)]
  }

  /**
   The transaction that the step commits. A commit that found its event buffered is left
   out if a sweep has removed that event meanwhile: it wrote nothing, and run after that
   sweep it would buffer the event again. Its place is before the sweep: see `SerialOrder`.
   */
  function Commits(s: Sys, a: Action): seq<Txn> {
    if !a.Commit? || |s.workers| <= a.w then []
    else
      match s.workers[a.w]
      case Ready(j, _, _) => [Ran(j)]
      case Found(e, at) => if KeyOf(e) in s.tables.pending then [Ran(StepJob(e, at))] else []
      case Sweeping(keys) => [Removed(keys)]
      case _ => []
  }

  function Act(s: Sys, a: Action): Sys
    requires Enabled(s, a)
  {
    var k := s.workers[a.w];
    match a
    case Begin(w, job) => Move(s, w, Waiting(job))
    case Lock(w) => Move(s, w, Holding(k.job))
    case Read(w) => Move(s, w, Deciding(k.job, StateOf(View(s.tables, OrderOf(k.job)))))
    case Stage(w) =>
      (match k.job
       case StepJob(e, at) => StageStep(s, w, e, at, k.state)
       case AbortJob(e, at) => StageAbort(s, w, e, at, k.state))
    case DrainOne(w) => DrainStatement(s, w, k.step, k.at, k.next, k.staged)
    case Commit(w) =>
      Move(s.(tables := if k.Ready? then ExecAll(s.tables, k.staged)
                        else if k.Sweeping? then Exec(s.tables, DeletePending(k.keys)) else s.tables,
              serial := s.serial + Commits(s, a)), w, Idle)
    case Rollback(w) => Move(s, w, Idle)
    case SelectRows(w, keys) => Move(s, w, Sweeping(keys))
  }

  /* ----- the serial history ----- */

  function RunTxn(o: OrderId, l: Ledger, t: Txn): Ledger {
    match t
    case Ran(StepJob(e, _)) => if e.orderId == o then DeliverStep(l, e) else l
    case Ran(AbortJob(e, _)) => if e.orderId == o then DeliverAbort(l, e) else l
    case Removed(keys) => Expire(l, keys)
  }

  /** Running the logged transactions atomically, one after the other. */
  function RunSerial(o: OrderId, ts: seq<Txn>): Ledger {
    if ts == [] then EMPTY else RunTxn(o, RunSerial(o, ts[..|ts| - 1]), ts[|ts| - 1])
  }

  lemma {:induction false} SerialIsGood(o: OrderId, ts: seq<Txn>)
    ensures Good(o, RunSerial(o, ts))
  {
    if ts != [] {
      var l := RunSerial(o, ts[..|ts| - 1]);
      SerialIsGood(o, ts[..|ts| - 1]);
      match ts[|ts| - 1]
      case Ran(StepJob(e, _)) => if e.orderId == o { StepKeepsGood(o, l, e); }
      case Ran(AbortJob(e, _)) => if e.orderId == o { AbortKeepsGood(o, l, e); }
      case Removed(_) =>
    }
  }

  /* ----- runs: every interleaving is serial ----- */

  /** The states of a run: it starts with `n` idle workers and empty tables, and each step is enabled. */
  ghost predicate IsRun(n: nat, actions: seq<Action>, states: seq<Sys>) {
    && |states| == |actions| + 1
    && states[0] == Init(n)
    && forall i | 0 <= i < |actions| :: Enabled(states[i], actions[i]) && states[i + 1] == Act(states[i], actions[i])
  }

  lemma {:induction false} RunKeepsInv(n: nat, actions: seq<Action>, states: seq<Sys>, i: nat)
    requires IsRun(n, actions, states) && i < |states|
    ensures Inv(states[i])
  {
    if i == 0 {
      forall o ensures View(Init(n).tables, o) == RunSerial(o, []) {
        assert BufferOf(map[], o) == map[];
      }
    } else {
      RunKeepsInv(n, actions, states, i - 1);
      ActKeepsInv(states[i - 1], actions[i - 1]);
    }
  }

  /** The transactions that the first `i` steps committed, in commit order. */
  ghost function Committed(actions: seq<Action>, states: seq<Sys>, i: nat): seq<Txn>
    requires i <= |actions| < |states|
  {
    if i == 0 then [] else Committed(actions, states, i - 1) + Commits(states[i - 1], actions[i - 1])
  }

  lemma {:induction false} SerialIsCommitted(n: nat, actions: seq<Action>, states: seq<Sys>, i: nat)
    requires IsRun(n, actions, states) && i < |states|
    ensures states[i].serial == Committed(actions, states, i)
  {
    if i > 0 {
      SerialIsCommitted(n, actions, states, i - 1);
      ActLogsCommits(states[i - 1], actions[i - 1]);
    }
  }

  lemma ActLogsCommits(s: Sys, a: Action)
    requires Enabled(s, a)
    ensures Act(s, a).serial == s.serial + Commits(s, a)
  {
  }

  /**
   Serializability. In every state of every interleaving of any number of workers and
   sweeps, with rollbacks anywhere, each order's row, buffer and notifications are those
   obtained by running the committed transactions atomically, in commit order, and so
   they satisfy the ledger invariant. `SerialOrder` finds a place also for those few that
   `Commits` leaves out, and shows that commit order is not it.
   */
  lemma {:induction false} EveryInterleavingIsSerial(n: nat, actions: seq<Action>, states: seq<Sys>, i: nat, o: OrderId)
    requires IsRun(n, actions, states) && i < |states|
    ensures View(states[i].tables, o) == RunSerial(o, Committed(actions, states, i))
    ensures Good(o, View(states[i].tables, o))
  {
    RunKeepsInv(n, actions, states, i);
    SerialIsCommitted(n, actions, states, i);
    SerialIsGood(o, states[i].serial);
  }

  /* ----- the part of a drain that is staged ----- */

  function DrainTo(l: Ledger, o: OrderId, plan: PlanId, from: int, end: int): Ledger
    decreases end - from
  {
    if end <= from then l
    else
      var m := DrainTo(l, o, plan, from, end - 1);
      var k := PendingKey(o, plan, end - 1);
      if k in m.pending then TakeOne(m, k) else m
  }

  lemma DrainToTakes(l: Ledger, o: OrderId, plan: PlanId, from: int, end: int)
    requires from <= end
    ensures var m, k := DrainTo(l, o, plan, from, end), PendingKey(o, plan, end);
      DrainTo(l, o, plan, from, end + 1) == if k in m.pending then TakeOne(m, k) else m
  {
  }

  ghost predicate HasAll(p: Buffer, o: OrderId, plan: PlanId, from: int, end: int) {
    forall j | from <= j < end :: PendingKey(o, plan, j) in p
  }

  lemma {:induction false} DrainToBuffer(l: Ledger, o: OrderId, plan: PlanId, from: int, end: int)
    requires HasAll(l.pending, o, plan, from, end)
    ensures var m := DrainTo(l, o, plan, from, end);
      forall k :: k in m.pending <==> k in l.pending && !(k.orderId == o && k.planId == plan && from <= k.seqId < end)
    ensures var m := DrainTo(l, o, plan, from, end); forall k | k in m.pending :: m.pending[k] == l.pending[k]
    decreases end - from
  {
    if from < end {
      DrainToBuffer(l, o, plan, from, end - 1);
      assert PendingKey(o, plan, end - 1) in l.pending;
    }
  }

  /** Draining from `from` is draining up to `end` and then from there. */
  lemma {:induction false} DrainSplits(l: Ledger, o: OrderId, plan: PlanId, from: int, end: int)
    requires from <= end && HasAll(l.pending, o, plan, from, end)
    ensures Drain(l, o, plan, from) == Drain(DrainTo(l, o, plan, from, end), o, plan, end)
    decreases end - from
  {
    if from < end {
      DrainSplits(l, o, plan, from, end - 1);
      DrainToBuffer(l, o, plan, from, end - 1);
      assert PendingKey(o, plan, end - 1) in l.pending;
    }
  }

  lemma {:induction false} DrainEnds(l: Ledger, o: OrderId, plan: PlanId, from: int, end: int)
    requires from <= end && HasAll(l.pending, o, plan, from, end)
    requires PendingKey(o, plan, end) !in l.pending
    ensures Drain(l, o, plan, from) == DrainTo(l, o, plan, from, end)
  {
    DrainSplits(l, o, plan, from, end);
    DrainToBuffer(l, o, plan, from, end);
  }

  /** Removing rows that the drain does not take, before or after it, is the same. */
  lemma {:induction false} DrainWithout(l: Ledger, o: OrderId, plan: PlanId, from: int, end: int, gone: set<PendingKey>)
    requires HasAll(l.pending, o, plan, from, end)
    requires forall j | from <= j < end :: PendingKey(o, plan, j) !in gone
    ensures DrainTo(Expire(l, gone), o, plan, from, end) == Expire(DrainTo(l, o, plan, from, end), gone)
    decreases end - from
  {
    if from < end {
      DrainWithout(l, o, plan, from, end - 1, gone);
      DrainToBuffer(l, o, plan, from, end - 1);
      var m, k := DrainTo(l, o, plan, from, end - 1), PendingKey(o, plan, end - 1);
      assert k in m.pending && k !in gone;
      assert (m.pending - gone) - {k} == (m.pending - {k}) - gone;
    }
  }

  /* ----- what a worker has staged ----- */

  ghost predicate LocalWrite(o: OrderId, w: Write) {
    match w
    case PutOrder(p, _) => p == o
    case PutPending(k, _) => k.orderId == o
    case DeletePending(keys) => forall k | k in keys :: k.orderId == o
    case Append(row) => row.event.orderId == o
  }

  ghost predicate Local(o: OrderId, ws: seq<Write>) {
    forall i | 0 <= i < |ws| :: LocalWrite(o, ws[i])
  }

  ghost predicate NoInsert(ws: seq<Write>) {
    forall i | 0 <= i < |ws| :: !ws[i].PutPending?
  }

  ghost predicate DeletesAll(ws: seq<Write>, o: OrderId, plan: PlanId, from: int, end: int) {
    forall j | from <= j < end :: PendingKey(o, plan, j) in Deleted(ws)
  }

  /** An applied step, its drain staged as far as `next`. */
  ghost predicate Mid(l: Ledger, e: Step, next: int, ws: seq<Write>) {
    var first := SeqOf(e) + 1;
    && Local(e.orderId, ws) && NoInsert(ws)
    && Decide(StateOf(l), e.planId, SeqOf(e)) == Apply
    && first <= next
    && HasAll(l.pending, e.orderId, e.planId, first, next)
    && DeletesAll(ws, e.orderId, e.planId, first, next)
    && EffectAll(e.orderId, l, ws) == DrainTo(ApplyOne(l, e), e.orderId, e.planId, first, next)
  }

  ghost predicate StepStaged(l: Ledger, e: Step, at: int, next: int, ws: seq<Write>) {
    || (Mid(l, e, next, ws) && PendingKey(e.orderId, e.planId, next) !in l.pending)
    || (&& ws == [PutPending(KeyOf(e), PendingRow(e, at))]
        && Decide(StateOf(l), e.planId, SeqOf(e)) == Buffer
        && KeyOf(e) !in l.pending)
  }

  ghost predicate AbortStaged(l: Ledger, e: Abort, ws: seq<Write>) {
    && Local(e.orderId, ws) && NoInsert(ws)
    && (forall k | k in l.pending && k.planId == e.planId :: k in Deleted(ws))
    && DecideAbort(StateOf(l), e.planId) in {Apply, Tombstone}
    && EffectAll(e.orderId, l, ws) == DeliverAbort(l, e)
  }

  /** Committing these writes is running the job on the order's current ledger. */
  ghost predicate JobStaged(l: Ledger, j: Job, next: int, ws: seq<Write>) {
    match j
    case StepJob(e, at) => StepStaged(l, e, at, next, ws)
    case AbortJob(e, _) => AbortStaged(l, e, ws)
  }

  ghost predicate WorkerOk(t: Tables, k: Worker) {
    match k
    case Deciding(j, state) => state == StateOf(View(t, OrderOf(j)))
    case Draining(e, _, next, ws) => ws != [] && Mid(View(t, e.orderId), e, next, ws)
    case Ready(j, next, ws) =>
      var l := View(t, OrderOf(j));
      if ws == [] then NothingToDo(l, j) else JobStaged(l, j, next, ws)
    case Found(e, _) => Decide(StateOf(View(t, e.orderId)), e.planId, SeqOf(e)) == Buffer
    case _ => true
  }

  /** The decision calls for no write. */
  predicate NothingToDo(l: Ledger, j: Job) {
    match j
    case StepJob(e, _) => Decide(StateOf(l), e.planId, SeqOf(e)) !in {Apply, Buffer}
    case AbortJob(e, _) => DecideAbort(StateOf(l), e.planId) !in {Apply, Tombstone}
  }

  lemma {:induction false} MidIsDone(l: Ledger, e: Step, next: int, ws: seq<Write>)
    requires Mid(l, e, next, ws) && PendingKey(e.orderId, e.planId, next) !in l.pending
    ensures EffectAll(e.orderId, l, ws) == DeliverStep(l, e)
  {
    DrainEnds(ApplyOne(l, e), e.orderId, e.planId, SeqOf(e) + 1, next);
  }

  lemma {:induction false} JobIsDone(l: Ledger, j: Job, next: int, ws: seq<Write>)
    requires JobStaged(l, j, next, ws)
    ensures EffectAll(OrderOf(j), l, ws) == RunTxn(OrderOf(j), l, Ran(j))
    ensures Local(OrderOf(j), ws)
  {
    match j
    case StepJob(e, at) =>
      if ws == [PutPending(KeyOf(e), PendingRow(e, at))] {
        EffectOneMore(e.orderId, l, [], ws[0]);
      } else {
        MidIsDone(l, e, next, ws);
      }
    case AbortJob(_, _) =>
  }

  /** Writes of one order leave the view of every other order alone. */
  lemma {:induction false} LocalElsewhere(o: OrderId, p: OrderId, l: Ledger, ws: seq<Write>)
    requires Local(o, ws) && p != o
    requires forall k | k in l.pending :: k.orderId == p
    ensures EffectAll(p, l, ws) == l
  {
    if ws != [] {
      LocalElsewhere(o, p, l, ws[..|ws| - 1]);
      var w := ws[|ws| - 1];
      assert LocalWrite(o, w);
      if w.DeletePending? {
        assert l.pending - w.keys == l.pending;
      }
    }
  }

  /** Rows removed by a sweep, before or after the staged writes. */
  lemma {:induction false} EffectWithout(o: OrderId, l: Ledger, ws: seq<Write>, gone: set<PendingKey>)
    requires NoInsert(ws)
    ensures EffectAll(o, Expire(l, gone), ws) == Expire(EffectAll(o, l, ws), gone)
  {
    if ws != [] {
      var front, w := ws[..|ws| - 1], ws[|ws| - 1];
      EffectWithout(o, l, front, gone);
      if w.DeletePending? {
        var p := EffectAll(o, l, front).pending;
        assert (p - gone) - w.keys == (p - w.keys) - gone;
      }
    }
  }

  lemma {:induction false} MidWithout(l: Ledger, e: Step, next: int, ws: seq<Write>, gone: set<PendingKey>)
    requires Mid(l, e, next, ws) && gone !! Deleted(ws)
    ensures Mid(Expire(l, gone), e, next, ws)
  {
    var a, first := ApplyOne(l, e), SeqOf(e) + 1;
    forall j | first <= j < next ensures PendingKey(e.orderId, e.planId, j) !in gone {
      assert PendingKey(e.orderId, e.planId, j) in Deleted(ws);
    }
    EffectWithout(e.orderId, l, ws, gone);
    DrainWithout(a, e.orderId, e.planId, first, next, gone);
    assert Expire(a, gone) == ApplyOne(Expire(l, gone), e);
  }

  lemma {:induction false} AbortWithout(l: Ledger, e: Abort, ws: seq<Write>, gone: set<PendingKey>)
    requires AbortStaged(l, e, ws) && gone !! Deleted(ws)
    ensures AbortStaged(Expire(l, gone), e, ws)
  {
    EffectWithout(e.orderId, l, ws, gone);
    assert DropPlan(l.pending - gone, e.orderId, e.planId) == DropPlan(l.pending, e.orderId, e.planId) - gone;
  }

  /** A sweep by someone else, of rows the worker has not locked, does not disturb it. */
  lemma WorkerOkWithout(t: Tables, k: Worker, gone: set<PendingKey>)
    requires WorkerOk(t, k) && gone !! Locked(k)
    ensures WorkerOk(Exec(t, DeletePending(gone)), k)
  {
    match k
    case Deciding(j, _) => ViewOfExec(t, DeletePending(gone), OrderOf(j));
    case Draining(e, _, next, ws) =>
      ViewOfExec(t, DeletePending(gone), e.orderId);
      MidWithout(View(t, e.orderId), e, next, ws, gone);
    case Ready(j, next, ws) =>
      var l := View(t, OrderOf(j));
      ViewOfExec(t, DeletePending(gone), OrderOf(j));
      if ws != [] {
        match j
        case StepJob(e, at) =>
          if Mid(l, e, next, ws) {
            MidWithout(l, e, next, ws, gone);
          }
        case AbortJob(e, _) => AbortWithout(l, e, ws, gone);
      }
    case Found(e, _) => ViewOfExec(t, DeletePending(gone), e.orderId);
    case _ =>
  }

  /* ----- the invariant ----- */

  ghost predicate Agrees(s: Sys) {
    forall o :: View(s.tables, o) == RunSerial(o, s.serial)
  }

  /** One holder per order lock, one per row lock. */
  ghost predicate Exclusive(s: Sys) {
    forall v, w | 0 <= v < w < |s.workers| ::
      && (LockOf(s.workers[v]).None? || LockOf(s.workers[v]) != LockOf(s.workers[w]))
      && Locked(s.workers[v]) !! Locked(s.workers[w])
  }

  ghost predicate Inv(s: Sys) {
    && Agrees(s)
    && Exclusive(s)
    && (forall w | 0 <= w < |s.workers| :: Locked(s.workers[w]) <= s.tables.pending.Keys)
    && (forall w | 0 <= w < |s.workers| :: WorkerOk(s.tables, s.workers[w]))
  }

  /** A step of one worker that leaves the tables alone. */
  lemma MoveKeepsInv(s: Sys, s': Sys, w: nat, k: Worker)
    requires Inv(s) && w < |s.workers|
    requires s'.tables == s.tables && s'.workers == s.workers[w := k]
    requires s'.serial == s.serial
    requires WorkerOk(s.tables, k)
    requires Locked(k) <= s.tables.pending.Keys && FreeFor(s, w, Locked(k))
    requires forall v | 0 <= v < |s.workers| && v != w :: LockOf(k).None? || LockOf(s.workers[v]) != LockOf(k)
    ensures Inv(s')
  {
  }

  lemma StageApplyIsMid(t: Tables, e: Step, entry: OutboxRow)
    requires Decide(StateOf(View(t, e.orderId)), e.planId, SeqOf(e)) == Apply && entry.event == e
    ensures var ws := [PutOrder(e.orderId, Written(RowIn(t, e.orderId), e)), Append(entry)];
      Mid(View(t, e.orderId), e, SeqOf(e) + 1, ws) && Deleted(ws) == {}
  {
    var a, b := PutOrder(e.orderId, Written(RowIn(t, e.orderId), e)), Append(entry);
    var l := View(t, e.orderId);
    assert [a, b] == ([] + [a]) + [b];
    EffectOneMore(e.orderId, l, [], a);
    EffectOneMore(e.orderId, l, [] + [a], b);
    DeletedOneMore([], a);
    DeletedOneMore([] + [a], b);
  }

  /** The worker after the decision: its staged writes, if any, are those of the job. */
  lemma {:induction false} StagedStepIsOk(s: Sys, w: nat, e: Step, at: int)
    requires w < |s.workers| && s.workers[w] == Deciding(StepJob(e, at), StateOf(View(s.tables, e.orderId)))
    ensures var s' := StageStep(s, w, e, at, s.workers[w].state);
      WorkerOk(s.tables, s'.workers[w]) && LockOf(s'.workers[w]) == LockOf(s.workers[w]) && Locked(s'.workers[w]) == {}
  {
    match Decide(StateOf(View(s.tables, e.orderId)), e.planId, SeqOf(e))
    case Apply => StageApplyIsMid(s.tables, e, FreshRow(s.nextPosition, e, at));
    case Buffer => StagedBuffer(s.tables, e, at);
    case _ =>
  }

  lemma {:induction false} StagedBuffer(t: Tables, e: Step, at: int)
    requires Decide(StateOf(View(t, e.orderId)), e.planId, SeqOf(e)) == Buffer
    ensures var buffer := PutPending(KeyOf(e), PendingRow(e, at));
      && Deleted([buffer]) == {}
      && (KeyOf(e) !in t.pending ==> StepStaged(View(t, e.orderId), e, at, 0, [buffer]))
  {
    var buffer := PutPending(KeyOf(e), PendingRow(e, at));
    DeletedOneMore([], buffer);
    assert [buffer] == [] + [buffer];
  }

  lemma StageStepKeepsInv(s: Sys, w: nat, e: Step, at: int)
    requires Inv(s) && w < |s.workers|
    requires s.workers[w] == Deciding(StepJob(e, at), StateOf(View(s.tables, e.orderId)))
    ensures Inv(StageStep(s, w, e, at, s.workers[w].state))
  {
    var s' := StageStep(s, w, e, at, s.workers[w].state);
    StagedStepIsOk(s, w, e, at);
    MoveKeepsInv(s, s', w, s'.workers[w]);
  }

  lemma {:induction false} AbortKeysDeleted(t: Tables, o: OrderId, plan: PlanId, ws: seq<Write>)
    requires ws != [] && ws[|ws| - 1] == DeletePending(PlanKeys(t.pending, o, plan))
    requires Deleted(ws[..|ws| - 1]) == {}
    ensures Deleted(ws) == PlanKeys(t.pending, o, plan)
    ensures forall k | k in View(t, o).pending && k.planId == plan :: k in Deleted(ws)
    ensures View(t, o).pending - PlanKeys(t.pending, o, plan) == DropPlan(View(t, o).pending, o, plan)
  {
  }

  lemma AbortApplyIsStaged(t: Tables, e: Abort, row: OrderRow, entry: OutboxRow)
    requires RowIn(t, e.orderId) == Some(row) && entry.event == e
    requires DecideAbort(StateOf(View(t, e.orderId)), e.planId) == Apply
    ensures var ws := [PutOrder(e.orderId, row.(status := StatusAborted)), Append(entry),
                       DeletePending(PlanKeys(t.pending, e.orderId, e.planId))];
      AbortStaged(View(t, e.orderId), e, ws) && Deleted(ws) == PlanKeys(t.pending, e.orderId, e.planId)
  {
    var a, b := PutOrder(e.orderId, row.(status := StatusAborted)), Append(entry);
    var c := DeletePending(PlanKeys(t.pending, e.orderId, e.planId));
    var ws := [a, b, c];
    assert ws == [] + [a, b, c] && ws[..2] == ([] + [a]) + [b];
    DeletedOneMore([], a);
    DeletedOneMore([] + [a], b);
    AbortKeysDeleted(t, e.orderId, e.planId, ws);
    EffectThree(e.orderId, View(t, e.orderId), [], a, b, c);
  }

  lemma TombstoneIsStaged(t: Tables, e: Abort)
    requires DecideAbort(StateOf(View(t, e.orderId)), e.planId) == Tombstone
    ensures var ws := [PutOrder(e.orderId, OrderRow(e.planId, UserOf(e), StatusAborted, None, 0)),
                       DeletePending(PlanKeys(t.pending, e.orderId, e.planId))];
      AbortStaged(View(t, e.orderId), e, ws) && Deleted(ws) == PlanKeys(t.pending, e.orderId, e.planId)
  {
    var a := PutOrder(e.orderId, OrderRow(e.planId, UserOf(e), StatusAborted, None, 0));
    var b := DeletePending(PlanKeys(t.pending, e.orderId, e.planId));
    assert [a, b] == ([] + [a]) + [b] && [a, b][..1] == [] + [a];
    DeletedOneMore([], a);
    AbortKeysDeleted(t, e.orderId, e.planId, [a, b]);
    EffectOneMore(e.orderId, View(t, e.orderId), [], a);
    EffectOneMore(e.orderId, View(t, e.orderId), [] + [a], b);
  }

  lemma StageAbortKeepsInv(s: Sys, w: nat, e: Abort, at: int)
    requires Inv(s) && w < |s.workers|
    requires s.workers[w] == Deciding(AbortJob(e, at), StateOf(View(s.tables, e.orderId)))
    requires FreeFor(s, w, Touches(s, s.workers[w]))
    ensures Inv(StageAbort(s, w, e, at, s.workers[w].state))
  {
    var l := View(s.tables, e.orderId);
    var s' := StageAbort(s, w, e, at, s.workers[w].state);
    assert Locked(s.workers[w]) == {};
    if DecideAbort(StateOf(l), e.planId) == Apply {
      AbortApplyIsStaged(s.tables, e, l.row.value, FreshRow(s.nextPosition, e, at));
    } else if DecideAbort(StateOf(l), e.planId) == Tombstone {
      TombstoneIsStaged(s.tables, e);
    }
    assert LockOf(s'.workers[w]) == LockOf(s.workers[w]);
    MoveKeepsInv(s, s', w, s'.workers[w]);
  }

  lemma {:induction false} TakeWritesTake(
    o: OrderId, l: Ledger, ws: seq<Write>, k: PendingKey, f: Step, entry: OutboxRow)
    requires k.orderId == o && entry.event == f && f.orderId == o
    requires var m := EffectAll(o, l, ws); k in m.pending && m.pending[k] == f
    ensures var m := EffectAll(o, l, ws);
      EffectAll(o, l, ws + TakeWrites(k, m.row, f, entry)) == TakeOne(m, k)
  {
    var m := EffectAll(o, l, ws);
    EffectThree(o, l, ws, DeletePending({k}), PutOrder(o, Written(m.row, f)), Append(entry));
  }

  lemma {:induction false} TakeWritesDelete(
    ws: seq<Write>, k: PendingKey, row: Option<OrderRow>, f: Step, entry: OutboxRow)
    ensures Deleted(ws + TakeWrites(k, row, f, entry)) == Deleted(ws) + {k}
  {
    var x, y, z := DeletePending({k}), PutOrder(k.orderId, Written(row, f)), Append(entry);
    assert ws + TakeWrites(k, row, f, entry) == ((ws + [x]) + [y]) + [z];
    DeletedOneMore(ws, x);
    DeletedOneMore(ws + [x], y);
    DeletedOneMore((ws + [x]) + [y], z);
  }

  lemma {:induction false} DeletesOneMore(
    ws: seq<Write>, ws': seq<Write>, o: OrderId, plan: PlanId, from: int, end: int)
    requires from <= end && DeletesAll(ws, o, plan, from, end)
    requires Deleted(ws') == Deleted(ws) + {PendingKey(o, plan, end)}
    ensures DeletesAll(ws', o, plan, from, end + 1)
  {
  }

  lemma TakeWritesAreLocal(
    ws: seq<Write>, o: OrderId, k: PendingKey, row: Option<OrderRow>, f: Step, entry: OutboxRow)
    requires Local(o, ws) && NoInsert(ws) && k.orderId == o && entry.event == f && f.orderId == o
    ensures var ws' := ws + TakeWrites(k, row, f, entry); Local(o, ws') && NoInsert(ws')
  {
    var ws' := ws + TakeWrites(k, row, f, entry);
    forall i | 0 <= i < |ws'| ensures LocalWrite(o, ws'[i]) && !ws'[i].PutPending? {
      if i < |ws| {
        assert LocalWrite(o, ws[i]);
      }
    }
  }

  /** One more buffered event taken inside the transaction. */
  lemma {:induction false} MidNext(l: Ledger, e: Step, next: int, ws: seq<Write>, f: Step, entry: OutboxRow)
    requires Mid(l, e, next, ws)
    requires var k := KeyOf(f); k == PendingKey(e.orderId, e.planId, next) && k in l.pending && l.pending[k] == f
    requires entry.event == f
    ensures Mid(l, e, next + 1, ws + TakeWrites(KeyOf(f), EffectAll(e.orderId, l, ws).row, f, entry))
  {
    var o, k, first := e.orderId, KeyOf(f), SeqOf(e) + 1;
    var row := EffectAll(o, l, ws).row;
    var ws' := ws + TakeWrites(k, row, f, entry);
    assert HasAll(l.pending, o, e.planId, first, next + 1);
    DrainToBuffer(ApplyOne(l, e), o, e.planId, first, next);
    TakeWritesTake(o, l, ws, k, f, entry);
    TakeWritesDelete(ws, k, row, f, entry);
    DeletesOneMore(ws, ws', o, e.planId, first, next);
    DrainToTakes(ApplyOne(l, e), o, e.planId, first, next);
    TakeWritesAreLocal(ws, o, k, row, f, entry);
  }

  lemma DrainTakeKeepsInv(s: Sys, w: nat, e: Step, at: int, next: int, ws: seq<Write>)
    requires Inv(s) && w < |s.workers|
    requires s.workers[w] == Draining(e, at, next, ws)
    requires FreeFor(s, w, Touches(s, s.workers[w]))
    requires PendingKey(e.orderId, e.planId, next) in s.tables.pending
    ensures Inv(DrainStatement(s, w, e, at, next, ws))
  {
    var k, l := PendingKey(e.orderId, e.planId, next), View(s.tables, e.orderId);
    var s' := DrainStatement(s, w, e, at, next, ws);
    var f := s.tables.pending[k].event;
    var entry := FreshRow(s.nextPosition, f, at);
    assert WorkerOk(s.tables, s.workers[w]);
    SerialIsGood(e.orderId, s.serial);
    assert l == RunSerial(e.orderId, s.serial);
    ViewOfExecAll(s.tables, ws, e.orderId);
    assert KeyOf(f) == k && l.pending[k] == f;
    MidNext(l, e, next, ws, f, entry);
    TakeWritesDelete(ws, k, EffectAll(e.orderId, l, ws).row, f, entry);
    var k' := s'.workers[w];
    assert Locked(k') == Locked(s.workers[w]) + {k};
    assert Locked(s.workers[w]) <= s.tables.pending.Keys;
    assert FreeFor(s, w, Locked(k'));
    assert LockOf(k') == LockOf(s.workers[w]);
    MoveKeepsInv(s, s', w, k');
  }

  lemma DrainStopKeepsInv(s: Sys, w: nat, e: Step, at: int, next: int, ws: seq<Write>)
    requires Inv(s) && w < |s.workers|
    requires s.workers[w] == Draining(e, at, next, ws)
    requires PendingKey(e.orderId, e.planId, next) !in s.tables.pending
    ensures Inv(DrainStatement(s, w, e, at, next, ws))
  {
  }

  lemma CommitAgrees(s: Sys, w: nat, j: Job, next: int, ws: seq<Write>)
    requires Inv(s) && w < |s.workers| && s.workers[w] == Ready(j, next, ws) && ws != []
    ensures Agrees(Act(s, Commit(w)))
  {
    var s' := Act(s, Commit(w));
    assert WorkerOk(s.tables, s.workers[w]);
    forall o ensures View(s'.tables, o) == RunSerial(o, s'.serial) {
      assert s'.serial[..|s'.serial| - 1] == s.serial;
      assert View(s.tables, o) == RunSerial(o, s.serial);
      ViewOfExecAll(s.tables, ws, o);
      JobIsDone(View(s.tables, OrderOf(j)), j, next, ws);
      if o != OrderOf(j) {
        LocalElsewhere(OrderOf(j), o, View(s.tables, o), ws);
      }
    }
  }

  /** Commits of one order's writes do not disturb a worker on another order, or one without a lock. */
  lemma {:induction false} CommitSpares(t: Tables, o: OrderId, ws: seq<Write>, k: Worker)
    requires WorkerOk(t, k) && Local(o, ws) && LockOf(k) != Some(o)
    ensures WorkerOk(ExecAll(t, ws), k)
  {
    if LockOf(k).Some? {
      var p := LockOf(k).value;
      ViewOfExecAll(t, ws, p);
      LocalElsewhere(o, p, View(t, p), ws);
    }
  }

  lemma {:induction false} RowsStay(t: Tables, ws: seq<Write>, keys: set<PendingKey>)
    requires keys <= t.pending.Keys && keys !! Deleted(ws)
    ensures keys <= ExecAll(t, ws).pending.Keys
  {
    if ws != [] {
      RowsStay(t, ws[..|ws| - 1], keys);
    }
  }

  lemma CommitKeepsInv(s: Sys, w: nat, j: Job, next: int, ws: seq<Write>)
    requires Inv(s) && w < |s.workers| && s.workers[w] == Ready(j, next, ws) && ws != []
    ensures Inv(Act(s, Commit(w)))
  {
    var s' := Act(s, Commit(w));
    CommitAgrees(s, w, j, next, ws);
    JobIsDone(View(s.tables, OrderOf(j)), j, next, ws);
    forall v | 0 <= v < |s'.workers|
      ensures WorkerOk(s'.tables, s'.workers[v])
      ensures Locked(s'.workers[v]) <= s'.tables.pending.Keys
    {
      if v != w {
        assert LockOf(s.workers[v]) != LockOf(s.workers[w]);
        assert Locked(s.workers[v]) !! Locked(s.workers[w]);
        CommitSpares(s.tables, OrderOf(j), ws, s.workers[v]);
        RowsStay(s.tables, ws, Locked(s.workers[v]));
      }
    }
  }

  lemma SweepKeepsInv(s: Sys, w: nat, keys: set<PendingKey>)
    requires Inv(s) && w < |s.workers| && s.workers[w] == Sweeping(keys)
    ensures Inv(Act(s, Commit(w)))
  {
    var s' := Act(s, Commit(w));
    forall o ensures View(s'.tables, o) == RunSerial(o, s'.serial) {
      assert s'.serial[..|s'.serial| - 1] == s.serial;
      ViewOfExec(s.tables, DeletePending(keys), o);
    }
    forall v | 0 <= v < |s'.workers|
      ensures WorkerOk(s'.tables, s'.workers[v])
      ensures Locked(s'.workers[v]) <= s'.tables.pending.Keys
    {
      if v != w {
        assert Locked(s.workers[v]) !! Locked(s.workers[w]);
        WorkerOkWithout(s.tables, s.workers[v], keys);
      }
    }
  }

  /** Committing without writes is running the job, which does nothing now either. */
  lemma {:induction false} IdleCommitAgrees(s: Sys, w: nat, o: OrderId)
    requires Inv(s) && Enabled(s, Commit(w))
    requires s.workers[w].Found? || (s.workers[w].Ready? && s.workers[w].staged == [])
    ensures RunSerial(o, s.serial + Commits(s, Commit(w))) == View(s.tables, o)
  {
    var more := s.serial + Commits(s, Commit(w));
    assert WorkerOk(s.tables, s.workers[w]);
    assert View(s.tables, o) == RunSerial(o, s.serial);
    if more != s.serial {
      assert more[..|more| - 1] == s.serial;
    }
  }

  lemma IdleCommitKeepsInv(s: Sys, w: nat)
    requires Inv(s) && Enabled(s, Commit(w))
    requires s.workers[w].Found? || (s.workers[w].Ready? && s.workers[w].staged == [])
    ensures Inv(Act(s, Commit(w)))
  {
    forall o ensures View(s.tables, o) == RunSerial(o, s.serial + Commits(s, Commit(w))) {
      IdleCommitAgrees(s, w, o);
    }
  }

  lemma ActKeepsInv(s: Sys, a: Action)
    requires Inv(s) && Enabled(s, a)
    ensures Inv(Act(s, a))
  {
    var k := s.workers[a.w];
    assert WorkerOk(s.tables, k);
    match a
    case Stage(w) =>
      match k.job {
        case StepJob(e, at) => StageStepKeepsInv(s, w, e, at);
        case AbortJob(e, at) => StageAbortKeepsInv(s, w, e, at);
      }
    case DrainOne(w) =>
      if PendingKey(k.step.orderId, k.step.planId, k.next) in s.tables.pending {
        DrainTakeKeepsInv(s, w, k.step, k.at, k.next, k.staged);
      } else {
        DrainStopKeepsInv(s, w, k.step, k.at, k.next, k.staged);
      }
    case Commit(w) =>
      if k.Sweeping? {
        SweepKeepsInv(s, w, k.keys);
      } else if k.Ready? && k.staged != [] {
        CommitKeepsInv(s, w, k.job, k.next, k.staged);
      } else {
        IdleCommitKeepsInv(s, w);
      }
    case _ =>
      MoveKeepsInv(s, Act(s, a), a.w, Act(s, a).workers[a.w]);
  }
}

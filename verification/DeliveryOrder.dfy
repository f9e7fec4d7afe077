/** What the sink sees of the dispatchers: its order check holds exactly when no entry is accepted twice. */
module DeliveryOrder {
  import opened Models
  import opened Ledger
  import opened Tables
  import opened Outbox
  import opened Dispatch
  import Sinks

  /** The rows of aggregate `o` whose requests were accepted, in the order of the replies. */
  function AcceptedRows(rows: seq<OutboxRow>, trace: seq<Note>, o: OrderId): (accepted: seq<nat>)
  {
    if trace == [] then []
    else
      var front, n := AcceptedRows(rows, trace[..|trace| - 1], o), trace[|trace| - 1];
      if Accepted(n, n.row) && n.row < |rows| && rows[n.row].event.orderId == o then front + [n.row] else front
  }

  predicate AreRows(rows: seq<OutboxRow>, accepted: seq<nat>, o: OrderId) {
    forall t | 0 <= t < |accepted| :: accepted[t] < |rows| && rows[accepted[t]].event.orderId == o
  }

  /** The same at the sink: the key is that of the entry, the number that of its payload. */
  function CallsFor(rows: seq<OutboxRow>, accepted: seq<nat>, id: string, key: nat -> string): (calls: seq<Sinks.Call>)
    requires forall t | 0 <= t < |accepted| :: accepted[t] < |rows|
    ensures |calls| == |accepted|
    ensures forall t | 0 <= t < |accepted| :: calls[t] == CallFor(rows[accepted[t]], accepted[t], id, key)
  {
    seq(|accepted|, t requires 0 <= t < |accepted| => CallFor(rows[accepted[t]], accepted[t], id, key))
  }

  function CallFor(r: OutboxRow, i: nat, id: string, key: nat -> string): Sinks.Call {
    Sinks.Call(Some(key(i)), id, r.event.seqId, 200)
  }

  /** Idempotency keys are the ids of the entries: none is empty, and no two are the same. */
  ghost predicate ProperKeys(key: nat -> string) {
    (forall i :: key(i) != "") && (forall i, j | i != j :: key(i) != key(j))
  }

  ghost predicate NoneDead(rows: seq<OutboxRow>, trace: seq<Note>, o: OrderId) {
    forall i | 0 <= i < |rows| && rows[i].event.orderId == o :: DeadLettered(i) !in trace
  }

  /** The numbers of an aggregate's entries grow with their positions, from 1 on. */
  ghost predicate NumbersRise(rows: seq<OutboxRow>, o: OrderId) {
    && (forall i | 0 <= i < |rows| && rows[i].event.orderId == o && rows[i].event.seqId.Some? ::
          1 <= rows[i].event.seqId.value)
    && (forall i, j | Before(rows, i, j) && rows[i].event.orderId == o
          && rows[i].event.seqId.Some? && rows[j].event.seqId.Some? ::
          rows[i].event.seqId.value < rows[j].event.seqId.value)
  }

  predicate AllDifferent(s: seq<nat>) {
    forall t, u | 0 <= t < u < |s| :: s[t] != s[u]
  }

  predicate Ascending(rows: seq<OutboxRow>, accepted: seq<nat>) {
    forall t, u | 0 <= t < u < |accepted| :: Before(rows, accepted[t], accepted[u])
  }

  lemma {:induction false} AcceptedMembers(rows: seq<OutboxRow>, trace: seq<Note>, o: OrderId, i: nat)
    ensures i in AcceptedRows(rows, trace, o) <==>
            i < |rows| && rows[i].event.orderId == o && WasAccepted(trace, i)
  {
    if trace != [] {
      var front, n := trace[..|trace| - 1], trace[|trace| - 1];
      AcceptedMembers(rows, front, o, i);
      assert trace == front + [n];
      DoneStays(front, [n], i);
      if Accepted(n, i) {
        assert n in trace;
      }
      if WasAccepted(trace, i) && !Accepted(n, i) {
        var m :| m in trace && Accepted(m, i);
        assert m in front;
      }
    }
  }

  lemma OrderedFront(rows: seq<OutboxRow>, trace: seq<Note>)
    requires Ordered(rows, trace) && trace != []
    ensures Ordered(rows, trace[..|trace| - 1])
  {
    var front := trace[..|trace| - 1];
    forall t | 0 <= t < |front| ensures NoteInOrder(rows, front, t) {
      assert NoteInOrder(rows, trace, t) && front[..t] == trace[..t];
    }
  }

  /** Whoever is accepted has its predecessors accepted before. */
  lemma PredecessorsAccepted(rows: seq<OutboxRow>, trace: seq<Note>, o: OrderId, i: nat, j: nat)
    requires Ordered(rows, trace) && NoneDead(rows, trace, o)
    requires Before(rows, i, j) && rows[j].event.orderId == o && WasAccepted(trace, j)
    ensures WasAccepted(trace, i)
  {
    var n :| n in trace && Accepted(n, j);
    var t :| 0 <= t < |trace| && trace[t] == n;
    assert NoteInOrder(rows, trace, t);
    assert trace == trace[..t] + trace[t..];
    DoneStays(trace[..t], trace[t..], i);
  }

  /** If no entry is accepted twice, they are accepted in position order. */
  lemma {:induction false} AcceptedAscending(rows: seq<OutboxRow>, trace: seq<Note>, o: OrderId)
    requires InPositionOrder(rows) && Ordered(rows, trace) && NoneDead(rows, trace, o)
    requires AllDifferent(AcceptedRows(rows, trace, o))
    ensures Ascending(rows, AcceptedRows(rows, trace, o))
  {
    if trace != [] {
      var front, n := trace[..|trace| - 1], trace[|trace| - 1];
      var was, accepted := AcceptedRows(rows, front, o), AcceptedRows(rows, trace, o);
      OrderedFront(rows, trace);
      assert was <= accepted;
      assert forall t, u | 0 <= t < u < |was| :: was[t] == accepted[t] && was[u] == accepted[u];
      AcceptedAscending(rows, front, o);
      if accepted != was {
        forall t | 0 <= t < |was| ensures Before(rows, was[t], n.row) {
          LastIsLast(rows, front, o, was[t], n.row);
          assert accepted[t] != accepted[|was|];
        }
      }
    }
  }

  lemma {:induction false} LastIsLast(rows: seq<OutboxRow>, front: seq<Note>, o: OrderId, i: nat, j: nat)
    requires InPositionOrder(rows) && Ordered(rows, front) && NoneDead(rows, front, o)
    requires i in AcceptedRows(rows, front, o) && j < |rows| && rows[j].event.orderId == o
    ensures i != j && j !in AcceptedRows(rows, front, o) ==> Before(rows, i, j)
  {
    AcceptedMembers(rows, front, o, i);
    AcceptedMembers(rows, front, o, j);
    if i != j && j !in AcceptedRows(rows, front, o) && !Before(rows, i, j) {
      assert Before(rows, j, i);
      PredecessorsAccepted(rows, front, o, j, i);
    }
  }

  /* ----- at the sink ----- */

  lemma {:induction false} AllAnswered(calls: seq<Sinks.Call>, id: string)
    requires forall c | c in calls :: c.aggregateId == id && c.status == 200
    ensures Sinks.Answered(calls, id, 200) == calls
  {
    if calls != [] {
      AllAnswered(calls[..|calls| - 1], id);
      assert calls[|calls| - 1] in calls;
    }
  }

  /** Numbers of ascending rows increase. */
  lemma {:induction false} NumbersIncrease(
    rows: seq<OutboxRow>, accepted: seq<nat>, o: OrderId, id: string, key: nat -> string)
    requires NumbersRise(rows, o)
    requires AreRows(rows, accepted, o)
    requires Ascending(rows, accepted)
    ensures var seqs := Sinks.SeqsOf(CallsFor(rows, accepted, id, key));
      && Sinks.Increasing(seqs)
      && (forall n | n in seqs :: exists t ::
            0 <= t < |accepted| && rows[accepted[t]].event.seqId == Some(n))
  {
    if accepted != [] {
      var m := |accepted| - 1;
      var front := accepted[..m];
      NumbersIncrease(rows, front, o, id, key);
      assert CallsFor(rows, accepted, id, key)[..m] == CallsFor(rows, front, id, key);
      var was, seqs := Sinks.SeqsOf(CallsFor(rows, front, id, key)), Sinks.SeqsOf(CallsFor(rows, accepted, id, key));
      forall n | n in was
        ensures exists t :: 0 <= t < |accepted| && rows[accepted[t]].event.seqId == Some(n)
        ensures rows[accepted[m]].event.seqId.Some? ==> n < rows[accepted[m]].event.seqId.value
      {
        var t :| 0 <= t < |front| && rows[front[t]].event.seqId == Some(n);
        assert accepted[t] == front[t] && Before(rows, accepted[t], accepted[m]);
      }
      assert forall x | 0 <= x < |was| :: was[x] in was;
    }
  }

  lemma KeysTell(rows: seq<OutboxRow>, accepted: seq<nat>, o: OrderId, id: string, key: nat -> string)
    requires ProperKeys(key) && AreRows(rows, accepted, o)
    ensures Sinks.NoKeyTwice(CallsFor(rows, accepted, id, key)) <==> AllDifferent(accepted)
  {
    var calls := CallsFor(rows, accepted, id, key);
    if Sinks.NoKeyTwice(calls) {
      forall t, u | 0 <= t < u < |accepted| ensures accepted[t] != accepted[u] {
        assert calls[t].key.value != calls[u].key.value;
      }
    }
  }

  lemma {:induction false} AcceptedAreRows(rows: seq<OutboxRow>, trace: seq<Note>, o: OrderId)
    ensures AreRows(rows, AcceptedRows(rows, trace, o), o)
  {
    var accepted := AcceptedRows(rows, trace, o);
    forall t | 0 <= t < |accepted| ensures accepted[t] < |rows| && rows[accepted[t]].event.orderId == o {
      AcceptedMembers(rows, trace, o, accepted[t]);
    }
  }

  /**
   An aggregate none of whose entries is dead-lettered: whatever the dispatchers did, the
   sink reports no duplicate and nothing out of order about the deliveries it accepted
   exactly when it accepted none of them twice.
   */
  lemma {:induction false} SinkSeesOrder(
    c: Config, actions: seq<Action>, states: seq<Net>, k: nat, o: OrderId, id: string, key: nat -> string)
    requires IsRun(c, actions, states) && k < |states| && ProperKeys(key)
    requires NoneDead(states[k].rows, states[k].trace, o) && NumbersRise(states[k].rows, o)
    ensures var accepted := AcceptedRows(states[k].rows, states[k].trace, o);
      && AreRows(states[k].rows, accepted, o)
      && var g := Sinks.Tally(CallsFor(states[k].rows, accepted, id, key), id);
         g.missingKey == 0 && (g.duplicates == 0 && g.outOfOrder == 0 <==> AllDifferent(accepted))
  {
    var rows, trace := states[k].rows, states[k].trace;
    RunKeepsTold(c, actions, states, k);
    AcceptedAreRows(rows, trace, o);
    SinkSees(rows, trace, o, id, key);
  }

  lemma {:induction false} SinkSees(rows: seq<OutboxRow>, trace: seq<Note>, o: OrderId, id: string, key: nat -> string)
    requires InPositionOrder(rows) && Ordered(rows, trace) && ProperKeys(key)
    requires NoneDead(rows, trace, o) && NumbersRise(rows, o)
    requires AreRows(rows, AcceptedRows(rows, trace, o), o)
    ensures var accepted := AcceptedRows(rows, trace, o);
      var g := Sinks.Tally(CallsFor(rows, accepted, id, key), id);
      g.missingKey == 0 && (g.duplicates == 0 && g.outOfOrder == 0 <==> AllDifferent(accepted))
  {
    var accepted := AcceptedRows(rows, trace, o);
    DuplicatesTell(rows, accepted, o, id, key);
    if AllDifferent(accepted) {
      AcceptedAscending(rows, trace, o);
      AscendingIsInOrder(rows, accepted, o, id, key);
    }
  }

  lemma {:induction false} DuplicatesTell(
    rows: seq<OutboxRow>, accepted: seq<nat>, o: OrderId, id: string, key: nat -> string)
    requires ProperKeys(key) && AreRows(rows, accepted, o)
    ensures var g := Sinks.Tally(CallsFor(rows, accepted, id, key), id);
      g.missingKey == 0 && (g.duplicates == 0 <==> AllDifferent(accepted))
  {
    CallsTell(CallsFor(rows, accepted, id, key), id);
    KeysTell(rows, accepted, o, id, key);
  }

  /** What the sink counts for calls of one aggregate that it all accepted, and that all carry a key. */
  lemma {:induction false} CallsTell(calls: seq<Sinks.Call>, id: string)
    requires forall c | c in calls :: c.aggregateId == id && c.status == 200 && !Sinks.Keyless(c.key)
    ensures var g, seqs := Sinks.Tally(calls, id), Sinks.SeqsOf(calls);
      && g.missingKey == 0 && g.accepted == |calls|
      && (g.duplicates == 0 <==> Sinks.NoKeyTwice(calls))
      && ((forall n | n in seqs :: 1 <= n) && Sinks.Increasing(seqs) ==> g.outOfOrder == 0)
  {
    AllAnswered(calls, id);
    Sinks.OracleIsExact(calls, id);
    NoneKeyless(calls, id);
  }

  lemma {:induction false} AscendingIsInOrder(
    rows: seq<OutboxRow>, accepted: seq<nat>, o: OrderId, id: string, key: nat -> string)
    requires ProperKeys(key) && NumbersRise(rows, o)
    requires AreRows(rows, accepted, o)
    requires Ascending(rows, accepted)
    ensures Sinks.Tally(CallsFor(rows, accepted, id, key), id).outOfOrder == 0
  {
    CallsTell(CallsFor(rows, accepted, id, key), id);
    NumbersIncrease(rows, accepted, o, id, key);
  }

  lemma {:induction false} NoneKeyless(calls: seq<Sinks.Call>, id: string)
    requires forall c | c in calls :: !Sinks.Keyless(c.key)
    ensures Sinks.Tally(calls, id).missingKey == 0
  {
    if calls != [] {
      NoneKeyless(calls[..|calls| - 1], id);
      assert calls[|calls| - 1] in calls;
    }
  }

  /* ----- what the outcome check asks of the sink ----- */

  /** `sink_problems` of the outcome check finds none, `n` notifications being expected. */
  predicate NoProblems(g: Sinks.Aggregate, n: nat) {
    g.accepted == n && g.duplicates == 0 && g.outOfOrder == 0 && g.missingKey == 0
  }

  /**
   Once every entry of an aggregate is processed, and none was dead-lettered on the way, the
   outcome check finds no problem at the sink exactly when no entry was accepted twice.
   */
  lemma {:induction false} SinkHasNoProblems(
    c: Config, actions: seq<Action>, states: seq<Net>, k: nat, o: OrderId, id: string, key: nat -> string)
    requires IsRun(c, actions, states) && k < |states| && ProperKeys(key)
    requires NoneDead(states[k].rows, states[k].trace, o) && NumbersRise(states[k].rows, o)
    requires forall i | i in EntriesOf(states[k].rows, o) :: states[k].rows[i].processed
    ensures var accepted := AcceptedRows(states[k].rows, states[k].trace, o);
      && AreRows(states[k].rows, accepted, o)
      && var g := Sinks.Tally(CallsFor(states[k].rows, accepted, id, key), id);
         NoProblems(g, |NotesOf(states[k].rows, o)|) <==> AllDifferent(accepted)
  {
    var rows, trace := states[k].rows, states[k].trace;
    var accepted := AcceptedRows(rows, trace, o);
    SinkSeesOrder(c, actions, states, k, o, id, key);
    forall i ensures i in accepted <==> i in EntriesOf(rows, o) {
      AcceptedMembers(rows, trace, o, i);
      if i in EntriesOf(rows, o) {
        DeliveredWasAccepted(c, actions, states, k, i);
      }
    }
    assert MembersOf(accepted) == EntriesOf(rows, o);
    EntriesAreNotes(rows, o);
    if AllDifferent(accepted) {
      DifferentAreCounted(accepted);
    }
    AcceptedAreCounted(rows, accepted, o, id, key);
  }

  function EntriesOf(rows: seq<OutboxRow>, o: OrderId): set<nat> {
    set i: nat | i < |rows| && rows[i].event.orderId == o
  }

  lemma {:induction false} EntriesAreNotes(rows: seq<OutboxRow>, o: OrderId)
    ensures |EntriesOf(rows, o)| == |NotesOf(rows, o)|
  {
    if rows != [] {
      var n := |rows| - 1;
      EntriesAreNotes(rows[..n], o);
      assert EntriesOf(rows, o) ==
             if rows[n].event.orderId == o then EntriesOf(rows[..n], o) + {n} else EntriesOf(rows[..n], o);
    }
  }

  function MembersOf(s: seq<nat>): set<nat> {
    set i | i in s
  }

  lemma {:induction false} DifferentAreCounted(s: seq<nat>)
    requires AllDifferent(s)
    ensures |MembersOf(s)| == |s|
  {
    if s != [] {
      var m := |s| - 1;
      DifferentAreCounted(s[..m]);
      assert s == s[..m] + [s[m]];
      assert MembersOf(s) == MembersOf(s[..m]) + {s[m]};
      assert forall t | 0 <= t < m :: s[..m][t] != s[m];
    }
  }

  lemma {:induction false} AcceptedAreCounted(
    rows: seq<OutboxRow>, accepted: seq<nat>, o: OrderId, id: string, key: nat -> string)
    requires ProperKeys(key) && AreRows(rows, accepted, o)
    ensures Sinks.Tally(CallsFor(rows, accepted, id, key), id).accepted == |accepted|
  {
    CallsTell(CallsFor(rows, accepted, id, key), id);
  }

  /* ----- the store's numbers ----- */

  lemma {:induction false} NotesOfFront(rows: seq<OutboxRow>, o: OrderId, i: nat)
    requires i < |rows| && rows[i].event.orderId == o
    ensures |NotesOf(rows[..i], o)| < |NotesOf(rows, o)|
    ensures NotesOf(rows, o)[|NotesOf(rows[..i], o)|] == rows[i].event
    ensures forall j | i < j <= |rows| :: |NotesOf(rows[..i], o)| < |NotesOf(rows[..j], o)|
    decreases |rows|
  {
    var n := |rows| - 1;
    assert rows[..|rows|] == rows;
    if i < n {
      NotesOfFront(rows[..n], o, i);
      assert rows[..n][..i] == rows[..i];
      forall j | i < j <= n ensures rows[..n][..j] == rows[..j] {
      }
    }
  }

  /** What the store writes for an order is numbered like that, if its abort carries no number. */
  lemma {:induction false} StoreNumbersRise(rows: seq<OutboxRow>, o: OrderId, l: Ledger)
    requires InPositionOrder(rows) && Good(o, l) && l.notes == NotesOf(rows, o)
    requires forall n | n in l.notes && n.eventType.AbortPlan? :: n.seqId.None?
    ensures NumbersRise(rows, o)
  {
    forall i | 0 <= i < |rows| && rows[i].event.orderId == o && rows[i].event.seqId.Some?
      ensures rows[i].event.seqId.value == |NotesOf(rows[..i], o)| + 1
    {
      NotesOfFront(rows, o, i);
      NoteNumber(o, l, |NotesOf(rows[..i], o)|);
    }
    forall i, j | Before(rows, i, j) && rows[i].event.orderId == o
      ensures |NotesOf(rows[..i], o)| < |NotesOf(rows[..j], o)|
    {
      NotesOfFront(rows, o, i);
      assert i < j;
    }
  }

  lemma NoteNumber(o: OrderId, l: Ledger, i: nat)
    requires Good(o, l) && i < |l.notes|
    requires forall n | n in l.notes && n.eventType.AbortPlan? :: n.seqId.None?
    ensures l.notes[i].seqId.Some? ==> l.notes[i].seqId == Some(i + 1)
  {
    assert l.notes[i] in l.notes;
  }
}

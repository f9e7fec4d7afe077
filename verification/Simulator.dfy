/**
 The in-memory simulator: the same reordering as the store's, without a database. Two of
 its servers that share no state diverge whenever a plan is spread over them.
 */
module Simulator {
  import opened Models
  import opened Sequencing
  import opened Ledger
  import Confluence

  /** One order's progress: the last number processed, the numbers waiting, the order of processing. */
  datatype Progress = Progress(last: int, waiting: set<int>, done: seq<int>)

  const IDLE := Progress(0, {}, [])

  function Released(p: Progress): Progress
    decreases p.waiting
  {
    var n := p.last + 1;
    if n in p.waiting then Released(Progress(n, p.waiting - {n}, p.done + [n])) else p
  }

  lemma ReleasedTakes(p: Progress)
    ensures var n := p.last + 1;
      Released(p) == if n in p.waiting then Released(Progress(n, p.waiting - {n}, p.done + [n])) else p
  {
  }

  function Arrived(p: Progress, n: int): Progress {
    if n <= p.last then p
    else if n == p.last + 1 then Released(Progress(n, p.waiting, p.done + [n]))
    else p.(waiting := p.waiting + {n})
  }

  function Arrivals(ns: seq<int>): Progress {
    if ns == [] then IDLE else Arrived(Arrivals(ns[..|ns| - 1]), ns[|ns| - 1])
  }

  /* ----- the store's ledger makes the same progress ----- */

  function SeqIds(notes: seq<Event>): (ns: seq<int>)
    ensures |ns| == |notes|
    ensures forall i | 0 <= i < |notes| :: ns[i] == if notes[i].seqId.Some? then notes[i].seqId.value else 0
  {
    seq(|notes|, i requires 0 <= i < |notes| => if notes[i].seqId.Some? then notes[i].seqId.value else 0)
  }

  function ProgressOf(l: Ledger): Progress {
    Progress(if l.row.Some? then l.row.value.lastSeq else 0,
             set k | k in l.pending :: k.seqId,
             SeqIds(l.notes))
  }

  /** An order that only ever saw events of `plan`, and no abort. */
  ghost predicate OnlyOf(o: OrderId, plan: PlanId, l: Ledger) {
    && Keyed(o, l.pending) && (forall k | k in l.pending :: k.planId == plan)
    && (l.row.Some? ==> l.row.value.planId == plan && l.row.value.status != StatusAborted && 1 <= l.row.value.lastSeq)
  }

  lemma AppliedProgress(l: Ledger, e: Step)
    ensures ProgressOf(ApplyOne(l, e)) ==
            Progress(SeqOf(e), ProgressOf(l).waiting, ProgressOf(l).done + [SeqOf(e)])
  {
  }

  lemma WaitingKey(o: OrderId, plan: PlanId, l: Ledger, n: int)
    requires OnlyOf(o, plan, l)
    ensures n in ProgressOf(l).waiting <==> PendingKey(o, plan, n) in l.pending
    ensures ProgressOf(l.(pending := l.pending - {PendingKey(o, plan, n)})).waiting == ProgressOf(l).waiting - {n}
  {
  }

  lemma TakenProgress(o: OrderId, plan: PlanId, l: Ledger, n: int)
    requires OnlyOf(o, plan, l) && l.row.Some? && n == l.row.value.lastSeq + 1
    requires PendingKey(o, plan, n) in l.pending
    ensures var l' := TakeOne(l, PendingKey(o, plan, n));
      && OnlyOf(o, plan, l') && l'.row.Some? && l'.row.value.lastSeq == n
      && ProgressOf(l') == Progress(n, ProgressOf(l).waiting - {n}, ProgressOf(l).done + [n])
  {
  }

  lemma {:induction false} DrainedProgress(o: OrderId, plan: PlanId, l: Ledger, n: int)
    requires OnlyOf(o, plan, l) && l.row.Some? && n == l.row.value.lastSeq + 1
    ensures OnlyOf(o, plan, Drain(l, o, plan, n)) && ProgressOf(Drain(l, o, plan, n)) == Released(ProgressOf(l))
    decreases l.pending.Keys
  {
    var k := PendingKey(o, plan, n);
    if k in l.pending {
      var m := TakeOne(l, k);
      TakenProgress(o, plan, l, n);
      DrainedProgress(o, plan, m, n + 1);
      assert Drain(l, o, plan, n) == Drain(m, o, plan, n + 1) by {
        DrainTakes(l, o, plan, n);
      }
      assert Released(ProgressOf(l)) == Released(ProgressOf(m)) by {
        WaitingKey(o, plan, l, n);
        ReleasedTakes(ProgressOf(l));
      }
    } else {
      WaitingKey(o, plan, l, n);
    }
  }

  lemma DeliveredProgress(o: OrderId, plan: PlanId, l: Ledger, e: Step)
    requires OnlyOf(o, plan, l) && e.orderId == o && e.planId == plan
    ensures OnlyOf(o, plan, DeliverStep(l, e))
    ensures ProgressOf(DeliverStep(l, e)) == Arrived(ProgressOf(l), SeqOf(e))
  {
    match Decide(StateOf(l), e.planId, SeqOf(e))
    case Apply =>
      AppliedProgress(l, e);
      DrainedProgress(o, plan, ApplyOne(l, e), SeqOf(e) + 1);
    case Buffer =>
      WaitingKey(o, plan, l, SeqOf(e));
      var l' := DeliverStep(l, e);
      forall x ensures x in ProgressOf(l').waiting <==> x in ProgressOf(l).waiting + {SeqOf(e)} {
        if x in ProgressOf(l).waiting {
          var k :| k in l.pending && k.seqId == x;
          assert k in l'.pending;
        }
        if x == SeqOf(e) {
          assert KeyOf(e) in l'.pending;
        }
      }
    case _ =>
  }

  function Numbers(es: seq<Step>): (ns: seq<int>)
    ensures |ns| == |es| && forall i | 0 <= i < |es| :: ns[i] == SeqOf(es[i])
  {
    seq(|es|, i requires 0 <= i < |es| => SeqOf(es[i]))
  }

  /** For the same deliveries, the store's ledger and a simulated server make the same progress. */
  lemma {:induction false} StoreProgress(o: OrderId, plan: PlanId, es: seq<Step>)
    requires Confluence.OfPlan(o, plan, es)
    ensures OnlyOf(o, plan, Run(EMPTY, Confluence.Commands(es)))
    ensures ProgressOf(Run(EMPTY, Confluence.Commands(es))) == Arrivals(Numbers(es))
  {
    var cs := Confluence.Commands(es);
    if es == [] {
      assert ProgressOf(EMPTY) == IDLE;
    } else {
      var front := es[..|es| - 1];
      StoreProgress(o, plan, front);
      assert cs[..|es| - 1] == Confluence.Commands(front);
      assert Numbers(es)[..|es| - 1] == Numbers(front);
      DeliveredProgress(o, plan, Run(EMPTY, Confluence.Commands(front)), es[|es| - 1]);
    }
  }

  /* ----- what any arrival sequence leads to ----- */

  predicate CountsUp(s: seq<int>) {
    forall i | 0 <= i < |s| :: s[i] == i + 1
  }

  /** Processed: 1, 2, .., last. Waiting: the other numbers that came, all above the gap. */
  ghost predicate Sorted(p: Progress, came: set<int>) {
    && CountsUp(p.done) && p.last == |p.done|
    && (forall n :: n in p.waiting <==> n in came && p.last < n)
    && (forall n | 1 <= n <= p.last :: n in came)
  }

  function Came(ns: seq<int>): set<int> {
    set n | n in ns
  }

  lemma {:induction false} ReleasedIsSorted(p: Progress, came: set<int>)
    requires Sorted(p, came)
    ensures Sorted(Released(p), came) && Released(p).last + 1 !in came
    decreases p.waiting
  {
    var n := p.last + 1;
    if n in p.waiting {
      ReleasedIsSorted(Progress(n, p.waiting - {n}, p.done + [n]), came);
    }
  }

  lemma {:induction false} ArrivalsAreSorted(ns: seq<int>)
    ensures Sorted(Arrivals(ns), Came(ns)) && Arrivals(ns).last + 1 !in ns
  {
    if ns != [] {
      var front, n := ns[..|ns| - 1], ns[|ns| - 1];
      ArrivalsAreSorted(front);
      var p, came := Arrivals(front), Came(ns);
      assert came == Came(front) + {n};
      if n == p.last + 1 {
        ReleasedIsSorted(Progress(n, p.waiting, p.done + [n]), came);
      }
    }
  }

  /** Numbers 1..n in any order, with any repeats, are all processed, in order, and nothing waits. */
  lemma {:induction false} AnyOrderCompletes(ns: seq<int>, n: nat)
    requires forall k :: k in ns <==> 1 <= k <= n
    ensures var p := Arrivals(ns); p.last == n == |p.done| && p.waiting == {} && CountsUp(p.done)
  {
    ArrivalsAreSorted(ns);
    var p, came := Arrivals(ns), Came(ns);
    assert 1 <= p.last ==> p.last in came;
    assert p.last + 1 in ns <==> 1 <= p.last + 1 <= n;
    forall x ensures x !in p.waiting {
      assert x in came ==> x in ns;
    }
  }

  /* ----- the server ----- */

  datatype Packet = Packet(number: int, kind: string)

  class Server {
    var statusOf: map<string, int>
    var waiting: map<string, map<int, Packet>>
    /** The order in which each order's events were processed. */
    ghost var done: map<string, seq<int>>

    ghost predicate Valid()
      reads this
    {
      forall id, n | id in waiting && n in waiting[id] :: waiting[id][n].number == n
    }

    function LastOf(id: string): int
      reads this
    {
      if id in statusOf then statusOf[id] else 0
    }

    ghost function Of(id: string): Progress
      reads this
    {
      Progress(LastOf(id),
               if id in waiting then waiting[id].Keys else {},
               if id in done then done[id] else [])
    }

    constructor ()
      ensures Valid() && forall id :: Of(id) == IDLE
    {
      statusOf, waiting, done := map[], map[], map[];
    }

    method Process(id: string, p: Packet)
      modifies this`statusOf, this`done
      ensures Of(id) == Progress(p.number, old(Of(id)).waiting, old(Of(id)).done + [p.number])
      ensures forall other | other != id :: Of(other) == old(Of(other))
    {
      statusOf := statusOf[id := p.number];
      done := done[id := (if id in done then done[id] else []) + [p.number]];
    }

    method HandleEvent(id: string, p: Packet)
      requires Valid()
      modifies this
      ensures Valid()
      ensures Of(id) == Arrived(old(Of(id)), p.number)
      ensures forall other | other != id :: Of(other) == old(Of(other))
    {
      var last := LastOf(id);
      if p.number <= last {
        return;
      }
      if p.number == last + 1 {
        Process(id, p);
        CheckWaitingRoom(id);
      } else {
        var room := if id in waiting then waiting[id] else map[];
        waiting := waiting[id := room[p.number := p]];
      }
    }

    method CheckWaitingRoom(id: string)
      requires Valid()
      modifies this
      ensures Valid()
      ensures Of(id) == Released(old(Of(id)))
      ensures forall other | other != id :: Of(other) == old(Of(other))
    {
      if id !in waiting {
        return;
      }
      while true
        invariant Valid() && id in waiting
        invariant Released(Of(id)) == Released(old(Of(id)))
        invariant forall other | other != id :: Of(other) == old(Of(other))
        decreases waiting[id].Keys
      {
        var next := LastOf(id) + 1;
        if next !in waiting[id] {
          return;
        }
        var p := waiting[id][next];
        waiting := waiting[id := waiting[id] - {next}];
        Process(id, p);
      }
    }
  }

  /* ----- split brain ----- */

  /** What the plan sends to one of two servers, given which steps go to the other one. */
  function Routed(ns: seq<int>, choices: seq<bool>, side: bool): seq<int>
    requires |choices| == |ns|
  {
    if ns == [] then []
    else
      var n := |ns| - 1;
      var front := Routed(ns[..n], choices[..n], side);
      if choices[n] == side then front + [ns[n]] else front
  }

  lemma {:induction false} RoutedMembers(ns: seq<int>, choices: seq<bool>, side: bool, x: int)
    requires |choices| == |ns|
    ensures x in Routed(ns, choices, side) <==> exists i :: 0 <= i < |ns| && ns[i] == x && choices[i] == side
  {
    if ns != [] {
      var n := |ns| - 1;
      RoutedMembers(ns[..n], choices[..n], side, x);
      if choices[n] == side && ns[n] == x {
        assert x in Routed(ns, choices, side);
      }
      if i :| 0 <= i < |ns| && ns[i] == x && choices[i] == side && i < n {
        assert ns[..n][i] == x && choices[..n][i] == side;
      }
    }
  }

  /** A server that has not seen step 1 has not processed anything; one that has, has. */
  lemma {:induction false} ProgressNeedsTheFirst(ns: seq<int>)
    ensures Arrivals(ns).last == 0 <==> 1 !in ns
    ensures 0 <= Arrivals(ns).last
  {
    ArrivalsAreSorted(ns);
    var came := Came(ns);
    assert 1 <= Arrivals(ns).last ==> 1 in came;
  }

  /**
   Split brain: however the steps of a plan are spread over two servers that share nothing,
   exactly one of them makes no progress at all, so they always disagree.
   */
  lemma {:induction false} ExactlyOneStalls(n: nat, choices: seq<bool>)
    requires 1 <= n == |choices|
    ensures var ns := seq(n, i => i + 1);
      var a, b := Arrivals(Routed(ns, choices, true)).last, Arrivals(Routed(ns, choices, false)).last;
      (a == 0 && b > 0) || (a > 0 && b == 0)
  {
    var ns := seq(n, i => i + 1);
    RoutedMembers(ns, choices, true, 1);
    RoutedMembers(ns, choices, false, 1);
    assert ns[0] == 1 && forall i | 0 <= i < n && ns[i] == 1 :: i == 0;
    ProgressNeedsTheFirst(Routed(ns, choices, true));
    ProgressNeedsTheFirst(Routed(ns, choices, false));
  }

  /** Sends the steps of a plan, each to one of the two servers. */
  method ExecuteWithPartition(id: string, plan: seq<Packet>, choices: seq<bool>, alpha: Server, beta: Server)
    requires alpha.Valid() && beta.Valid() && alpha != beta && |choices| == |plan|
    requires alpha.Of(id) == IDLE && beta.Of(id) == IDLE
    requires forall i | 0 <= i < |plan| :: plan[i].number == i + 1
    modifies alpha, beta
    ensures var ns := seq(|plan|, i => i + 1);
      alpha.Of(id) == Arrivals(Routed(ns, choices, true)) && beta.Of(id) == Arrivals(Routed(ns, choices, false))
    ensures plan != [] ==> alpha.LastOf(id) != beta.LastOf(id)
  {
    ghost var ns := seq(|plan|, i => i + 1);
    for k := 0 to |plan|
      invariant alpha.Valid() && beta.Valid()
      invariant alpha.Of(id) == Arrivals(Routed(ns[..k], choices[..k], true))
      invariant beta.Of(id) == Arrivals(Routed(ns[..k], choices[..k], false))
    {
      assert ns[..k + 1][..k] == ns[..k] && choices[..k + 1][..k] == choices[..k];
      if choices[k] {
        RoutedOneMore(ns, choices, k, true);
        alpha.HandleEvent(id, plan[k]);
      } else {
        RoutedOneMore(ns, choices, k, false);
        beta.HandleEvent(id, plan[k]);
      }
    }
    assert ns[..|plan|] == ns && choices[..|plan|] == choices;
    if plan != [] {
      ExactlyOneStalls(|plan|, choices);
    }
  }

  lemma RoutedOneMore(ns: seq<int>, choices: seq<bool>, k: nat, side: bool)
    requires |choices| == |ns| && k < |ns| && choices[k] == side
    ensures Arrivals(Routed(ns[..k + 1], choices[..k + 1], side)) ==
            Arrived(Arrivals(Routed(ns[..k], choices[..k], side)), ns[k])
    ensures Routed(ns[..k + 1], choices[..k + 1], !side) == Routed(ns[..k], choices[..k], !side)
  {
    assert ns[..k + 1][..k] == ns[..k] && choices[..k + 1][..k] == choices[..k];
    var front := Routed(ns[..k], choices[..k], side);
    assert (front + [ns[k]])[..|front|] == front;
  }
}

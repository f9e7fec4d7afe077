/** The webhook sink: the receiver that checks order and duplicates, per aggregate. */
module Sinks {
  import opened Models

  datatype Aggregate = Aggregate(
    received: nat, accepted: nat, duplicates: nat, outOfOrder: nat, missingKey: nat,
    rejected: nat, failedInjected: nat,
    acceptedSeqs: seq<int>, keys: set<string>, lastSeq: int)

  const BLANK := Aggregate(0, 0, 0, 0, 0, 0, 0, [], {}, 0)

  /** A request to the sink, and the status it answered. */
  datatype Call = Call(key: Option<string>, aggregateId: string, seqId: Option<int>, status: int)

  predicate Keyless(key: Option<string>) {
    key.None? || key.value == ""
  }

  /** What the calls say about the aggregate, one call at a time. */
  function Tally(calls: seq<Call>, id: string): Aggregate {
    if calls == [] then BLANK
    else
      var g, call := Tally(calls[..|calls| - 1], id), calls[|calls| - 1];
      if call.aggregateId == id then Counted(g, call) else g
  }

  function Counted(g: Aggregate, call: Call): Aggregate {
    var seen := g.(received := g.received + 1);
    if call.status == 400 then seen.(rejected := g.rejected + 1)
    else if call.status == 503 then seen.(failedInjected := g.failedInjected + 1)
    else
      var keyed :=
        if Keyless(call.key) then seen.(missingKey := g.missingKey + 1)
        else if call.key.value in g.keys then seen.(duplicates := g.duplicates + 1)
        else seen.(keys := g.keys + {call.key.value});
      var taken := keyed.(accepted := g.accepted + 1);
      match call.seqId
      case None => taken
      case Some(n) =>
        taken.(outOfOrder := g.outOfOrder + if n <= g.lastSeq then 1 else 0,
               lastSeq := if g.lastSeq < n then n else g.lastSeq,
               acceptedSeqs := g.acceptedSeqs + [n])
  }

  /* ----- what the counters mean ----- */

  /** The calls of an aggregate that got this answer, in order. */
  function Answered(calls: seq<Call>, id: string, status: int): (some: seq<Call>)
    ensures forall c | c in some :: c in calls && c.aggregateId == id && c.status == status
  {
    if calls == [] then []
    else
      var front, last := Answered(calls[..|calls| - 1], id, status), calls[|calls| - 1];
      if last.aggregateId == id && last.status == status then front + [last] else front
  }

  predicate Answers(calls: seq<Call>) {
    forall c | c in calls :: c.status in {200, 400, 503}
  }

  predicate Increasing(s: seq<int>) {
    forall i, j | 0 <= i < j < |s| :: s[i] < s[j]
  }

  /** No idempotency key was accepted twice. */
  predicate NoKeyTwice(taken: seq<Call>) {
    forall i, j | 0 <= i < j < |taken| && taken[i].key.Some? && taken[i].key == taken[j].key :: taken[i].key.value == ""
  }

  function KeysOf(taken: seq<Call>): set<string> {
    set c | c in taken && c.key.Some? && c.key.value != "" :: c.key.value
  }

  function SeqsOf(taken: seq<Call>): seq<int> {
    if taken == [] then []
    else
      var front, last := SeqsOf(taken[..|taken| - 1]), taken[|taken| - 1];
      if last.seqId.Some? then front + [last.seqId.value] else front
  }

  /** Nothing is counted twice or dropped. */
  ghost predicate Conserved(g: Aggregate) {
    g.received == g.rejected + g.failedInjected + g.accepted && g.accepted == g.missingKey + g.duplicates + |g.keys|
  }

  /** The order check: no number came at or below an earlier one, or below the first possible one. */
  ghost predicate OrderExact(g: Aggregate) {
    && (g.outOfOrder == 0 <==> Increasing([0] + g.acceptedSeqs))
    && LargestOf(g.lastSeq, g.acceptedSeqs)
  }

  /** `last` is the largest of the numbers, and of 0. */
  ghost predicate LargestOf(last: int, s: seq<int>) {
    && (forall i | 0 <= i < |s| :: s[i] <= last)
    && (last == 0 || last in s) && 0 <= last
  }

  lemma IncreasingOneMore(s: seq<int>, last: int, n: int)
    requires s != [] && last in s && forall i | 0 <= i < |s| :: s[i] <= last
    ensures Increasing(s + [n]) <==> Increasing(s) && last < n
  {
    var more := s + [n];
    var k :| 0 <= k < |s| && s[k] == last;
    assert more[k] == last && more[|s|] == n;
    if Increasing(more) {
      assert more[k] < more[|s|];
      forall i, j | 0 <= i < j < |s| ensures s[i] < s[j] {
        assert more[i] < more[j];
      }
    }
  }

  lemma CountedStaysExact(g: Aggregate, call: Call)
    requires OrderExact(g)
    ensures OrderExact(Counted(g, call))
  {
    var g' := Counted(g, call);
    if g'.acceptedSeqs != g.acceptedSeqs {
      var was := [0] + g.acceptedSeqs;
      assert [0] + g'.acceptedSeqs == was + [call.seqId.value];
      assert was[0] == 0;
      assert g.lastSeq in g.acceptedSeqs ==> g.lastSeq in was;
      IncreasingOneMore(was, g.lastSeq, call.seqId.value);
    }
  }

  lemma CountedStaysConserved(g: Aggregate, call: Call)
    requires Conserved(g)
    ensures Conserved(Counted(g, call))
  {
    var g' := Counted(g, call);
    assert |g'.keys| == |g.keys| + if g'.keys == g.keys then 0 else 1;
  }

  lemma {:induction false} TallyIsExact(calls: seq<Call>, id: string)
    ensures Conserved(Tally(calls, id)) && OrderExact(Tally(calls, id))
  {
    if calls != [] {
      TallyIsExact(calls[..|calls| - 1], id);
      if calls[|calls| - 1].aggregateId == id {
        CountedStaysExact(Tally(calls[..|calls| - 1], id), calls[|calls| - 1]);
        CountedStaysConserved(Tally(calls[..|calls| - 1], id), calls[|calls| - 1]);
      }
    }
  }

  /** The counters, against the calls themselves: which keys and numbers were accepted, and how often. */
  ghost predicate Tells(g: Aggregate, taken: seq<Call>) {
    && g.accepted == |taken|
    && g.keys == KeysOf(taken)
    && g.acceptedSeqs == SeqsOf(taken)
    && (g.duplicates == 0 <==> NoKeyTwice(taken))
  }

  lemma {:induction false} TallyCounts(calls: seq<Call>, id: string)
    requires Answers(calls)
    ensures Tally(calls, id).rejected == |Answered(calls, id, 400)|
    ensures Tally(calls, id).failedInjected == |Answered(calls, id, 503)|
  {
    if calls != [] {
      assert calls[|calls| - 1] in calls;
      TallyCounts(calls[..|calls| - 1], id);
    }
  }

  lemma TellsOneMore(g: Aggregate, taken: seq<Call>, c: Call)
    requires Tells(g, taken) && c.status == 200
    ensures Tells(Counted(g, c), taken + [c])
  {
  }

  lemma {:induction false} TallyTells(calls: seq<Call>, id: string)
    requires Answers(calls)
    ensures Tells(Tally(calls, id), Answered(calls, id, 200))
  {
    if calls != [] {
      var front, last := calls[..|calls| - 1], calls[|calls| - 1];
      assert last in calls;
      TallyTells(front, id);
      if last.aggregateId == id && last.status == 200 {
        TellsOneMore(Tally(front, id), Answered(front, id, 200), last);
      }
    }
  }

  lemma FirstIsPositive(s: seq<int>)
    ensures (forall n | n in s :: 1 <= n) ==> (Increasing([0] + s) <==> Increasing(s))
  {
    var more := [0] + s;
    if Increasing(more) {
      forall i, j | 0 <= i < j < |s| ensures s[i] < s[j] {
        assert more[i + 1] < more[j + 1];
      }
    }
    if Increasing(s) && forall n | n in s :: 1 <= n {
      forall i, j | 0 <= i < j < |more| ensures more[i] < more[j] {
        assert more[j] == s[j - 1] && s[j - 1] in s;
      }
    }
  }

  /**
   The oracle is exact. For every request history and every injected failure: requests are
   rejected, failed or accepted; accepted ones lack a key, repeat one or bring a new one;
   no duplicate is reported exactly when no key was accepted twice; and, for numbers from 1
   on, nothing is reported out of order exactly when the accepted numbers strictly increase.
   */
  lemma {:induction false} OracleIsExact(calls: seq<Call>, id: string)
    requires Answers(calls)
    ensures var g, taken := Tally(calls, id), Answered(calls, id, 200);
      && g.received == g.rejected + g.failedInjected + g.accepted
      && g.rejected == |Answered(calls, id, 400)| && g.failedInjected == |Answered(calls, id, 503)|
      && g.accepted == |taken| == g.missingKey + g.duplicates + |KeysOf(taken)|
      && (g.duplicates == 0 <==> NoKeyTwice(taken))
      && ((forall n | n in SeqsOf(taken) :: 1 <= n) ==> (g.outOfOrder == 0 <==> Increasing(SeqsOf(taken))))
  {
    TallyIsExact(calls, id);
    TallyTells(calls, id);
    TallyCounts(calls, id);
    FirstIsPositive(SeqsOf(Answered(calls, id, 200)));
  }

  class State {
    var requests: nat
    var failEvery: int
    var rejectAggregates: set<string>
    var aggregates: map<string, Aggregate>
    /** The calls since the last reset. */
    ghost var calls: seq<Call>

    ghost predicate Valid()
      reads this
    {
      && requests == |calls|
      && Answers(calls)
      && (forall id | id in aggregates :: aggregates[id] == Tally(calls, id))
      && (forall id | id !in aggregates :: Tally(calls, id) == BLANK)
    }

    constructor ()
      ensures Valid() && calls == []
    {
      requests, failEvery, rejectAggregates, aggregates, calls := 0, 0, {}, map[], [];
    }

    method Reset()
      modifies this
      ensures Valid() && calls == [] && failEvery == 0 && rejectAggregates == {}
    {
      requests, failEvery, rejectAggregates, aggregates, calls := 0, 0, {}, map[], [];
    }

    method Control(every: int, reject: set<string>)
      requires Valid()
      modifies this`failEvery, this`rejectAggregates
      ensures Valid() && failEvery == every && rejectAggregates == reject
    {
      failEvery, rejectAggregates := every, reject;
    }

    /** Records an accepted delivery: its key, and its place in the order. */
    method Take(was: Aggregate, key: Option<string>, seqId: Option<int>) returns (agg: Aggregate)
      ensures forall id :: agg == Counted(was, Call(key, id, seqId, 200))
    {
      agg := was.(received := was.received + 1);
      agg := agg.(accepted := agg.accepted + 1);
      if Keyless(key) {
        agg := agg.(missingKey := agg.missingKey + 1);
      } else if key.value in agg.keys {
        agg := agg.(duplicates := agg.duplicates + 1);
      } else {
        agg := agg.(keys := agg.keys + {key.value});
      }
      if seqId.Some? {
        if seqId.value <= agg.lastSeq {
          agg := agg.(outOfOrder := agg.outOfOrder + 1);
        }
        agg := agg.(lastSeq := if agg.lastSeq < seqId.value then seqId.value else agg.lastSeq,
                    acceptedSeqs := agg.acceptedSeqs + [seqId.value]);
      }
    }

    /** Decides the status of the response and records the delivery. */
    method Handle(key: Option<string>, id: string, seqId: Option<int>) returns (status: int)
      requires Valid()
      modifies this`requests, this`aggregates, this`calls
      ensures Valid() && calls == old(calls) + [Call(key, id, seqId, status)]
      ensures status == if id in rejectAggregates then 400
                        else if failEvery != 0 && |calls| % failEvery == 0 then 503 else 200
    {
      requests := requests + 1;
      var agg := if id in aggregates then aggregates[id] else BLANK;
      ghost var was := agg;
      if id in rejectAggregates {
        agg := agg.(received := agg.received + 1, rejected := agg.rejected + 1);
        status := 400;
      } else if failEvery != 0 && requests % failEvery == 0 {
        agg := agg.(received := agg.received + 1, failedInjected := agg.failedInjected + 1);
        status := 503;
      } else {
        status := 200;
        agg := Take(agg, key, seqId);
      }
      aggregates := aggregates[id := agg];
      ghost var call := Call(key, id, seqId, status);
      assert agg == Counted(was, call);
      calls := calls + [call];
    }
  }
}

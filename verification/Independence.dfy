/** Orders do not interfere: each one depends on its own records only, and records of different orders commute. */
module Independence {
  import opened Models
  import opened Tables
  import opened Transactions
  import opened Replay

  /** The records of one order, in log order. */
  function Only(o: OrderId, log: seq<Record>): seq<Record> {
    if log == [] then []
    else
      var front, last := Only(o, log[..|log| - 1]), log[|log| - 1];
      if Concerns(last, o) then front + [last] else front
  }

  lemma {:induction false} PassOfPrefix(o: OrderId, log: seq<Record>, n: nat, m: nat)
    requires n <= m <= |log|
    ensures Pass(o, log, n) == Pass(o, log[..m], n)
  {
    if n > 0 {
      PassOfPrefix(o, log, n - 1, m);
    }
  }

  lemma {:induction false} PassOfOnly(o: OrderId, log: seq<Record>)
    ensures Pass(o, log, |log|) == Pass(o, Only(o, log), |Only(o, log)|)
  {
    if log != [] {
      var n := |log| - 1;
      PassOfOnly(o, log[..n]);
      PassOfPrefix(o, log, n, n);
      var mine := Only(o, log);
      if Concerns(log[n], o) {
        assert mine[..|mine| - 1] == Only(o, log[..n]);
        PassOfPrefix(o, mine, |mine| - 1, |mine| - 1);
      }
    }
  }

  lemma {:induction false} OnlyOfPrefix(o: OrderId, log: seq<Record>, n: nat)
    requires n <= |log|
    ensures Only(o, log[..n]) <= Only(o, log)
    decreases |log|
  {
    if n < |log| {
      OnlyOfPrefix(o, log[..|log| - 1], n);
      assert log[..|log| - 1][..n] == log[..n];
    } else {
      assert log[..n] == log;
    }
  }

  lemma {:induction false} OnlyMembers(o: OrderId, log: seq<Record>, r: Record)
    ensures r in Only(o, log) <==> r in log && Concerns(r, o)
  {
    if log != [] {
      OnlyMembers(o, log[..|log| - 1], r);
      assert r in log <==> r in log[..|log| - 1] || r == log[|log| - 1];
    }
  }

  /** What handling a record does to the tables. */
  function Handled(t: Tables, r: Record, pos: nat, now: int): Tables {
    if r.Parsed? && IsStep(r.event) then DeliveredTables(t, r.event, pos, now)
    else if r.Parsed? && IsAbort(r.event) then AbortedTables(t, r.event, pos, now)
    else t
  }

  lemma HandledIsGood(t: Tables, r: Record, pos: nat, now: int)
    requires AllGood(t)
    ensures AllGood(Handled(t, r, pos, now))
    ensures forall o :: View(Handled(t, r, pos, now), o) == Handle(o, View(t, o), r)
  {
    if r.Parsed? && IsStep(r.event) {
      DeliveredIsGood(t, r.event, pos, now);
    } else if r.Parsed? && IsAbort(r.event) {
      AbortedIsGood(t, r.event, pos, now);
    }
  }

  /** Running a mixed log on the tables; record i draws positions from `pos[i]` on, at time `now[i]`. */
  function HandledLog(log: seq<Record>, pos: seq<nat>, now: seq<int>): Tables
    requires |pos| == |now| == |log|
  {
    if log == [] then EMPTY_TABLES
    else
      var n := |log| - 1;
      Handled(HandledLog(log[..n], pos[..n], now[..n]), log[n], pos[n], now[n])
  }

  /** Each order's row, buffer and notifications are the ledger's pass over the log. */
  lemma {:induction false} HandledLogIsPass(log: seq<Record>, pos: seq<nat>, now: seq<int>)
    requires |pos| == |now| == |log|
    ensures AllGood(HandledLog(log, pos, now))
    ensures forall o :: View(HandledLog(log, pos, now), o) == Pass(o, log, |log|)
  {
    if log == [] {
      forall o ensures View(EMPTY_TABLES, o) == Pass(o, log, 0) {
        assert BufferOf(map[], o) == map[];
        PassIsGood(o, log, 0);
      }
    } else {
      var n := |log| - 1;
      HandledLogIsPass(log[..n], pos[..n], now[..n]);
      HandledIsGood(HandledLog(log[..n], pos[..n], now[..n]), log[n], pos[n], now[n]);
      forall o ensures View(HandledLog(log, pos, now), o) == Pass(o, log, |log|) {
        PassOfPrefix(o, log, n, n);
      }
    }
  }

  /**
   A run over a mixed log leaves in the tables, of each order, exactly the row, the buffer
   and the outbox entries that a run over that order's own records alone leaves, whatever
   positions and times the transactions of the two runs get.
   */
  lemma {:induction false} OnlyItsRecordsMatter(
    o: OrderId, log: seq<Record>, pos: seq<nat>, now: seq<int>, pos': seq<nat>, now': seq<int>)
    requires |pos| == |now| == |log| && |pos'| == |now'| == |Only(o, log)|
    ensures View(HandledLog(log, pos, now), o) == View(HandledLog(Only(o, log), pos', now'), o)
  {
    HandledLogIsPass(log, pos, now);
    HandledLogIsPass(Only(o, log), pos', now');
    PassOfOnly(o, log);
  }

  /** Records of different orders commute, up to the outbox positions they draw. */
  lemma DifferentOrdersCommute(t: Tables, r: Record, s: Record, p: nat, q: nat, p': nat, q': nat, now: int)
    requires AllGood(t)
    requires r.Parsed? && s.Parsed? ==> r.event.orderId != s.event.orderId
    ensures forall o :: View(Handled(Handled(t, r, p, now), s, q, now), o) ==
                        View(Handled(Handled(t, s, q', now), r, p', now), o)
  {
    HandledIsGood(t, r, p, now);
    HandledIsGood(Handled(t, r, p, now), s, q, now);
    HandledIsGood(t, s, q', now);
    HandledIsGood(Handled(t, s, q', now), r, p', now);
  }
}

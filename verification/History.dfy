/**
 What a consumer has settled, in order: the history ties the tables and the DLQ to the
 records of each partition and to the offsets.
 */
module History {
  import opened Models
  import opened Ledger
  import opened Tables
  import opened Transactions
  import opened Replay
  import opened Accounting
  import Backoff

  datatype Ref = Ref(partition: nat, offset: nat)

  datatype Code = PARSE_ERROR | INVALID_EVENT | PLAN_MISMATCH | DB_REJECTED | BUFFER_TIMEOUT

  datatype Letter = RawLetter(raw: string, code: Code) | EventLetter(event: Event, code: Code)

  /** `refused`: the database rejected the data and the DLQ took the event. */
  datatype Entry =
    | Handled(ref: Ref, refused: bool)
    | Expired(keys: set<PendingKey>)
    | ExpiryFailed(keys: set<PendingKey>)

  type Log = seq<seq<Record>>

  predicate InLog(log: Log, r: Ref) {
    r.partition < |log| && r.offset < |log[r.partition]|
  }

  function TurnOf(log: Log, h: Entry): Turn
    requires h.Handled? ==> InLog(log, h.ref)
  {
    match h
    case Handled(r, refused) =>
      var record := RecordOf(log, r);
      if refused then Refused(record) else Settled(record)
    case Expired(keys) => Swept(keys)
    case ExpiryFailed(keys) => SweepUndone(keys)
  }

  ghost predicate AllInLog(log: Log, hs: seq<Entry>) {
    forall i | 0 <= i < |hs| && hs[i].Handled? :: InLog(log, hs[i].ref)
  }

  ghost function TurnsOf(log: Log, hs: seq<Entry>): (ts: seq<Turn>)
    requires AllInLog(log, hs)
    ensures |ts| == |hs|
    ensures forall i | 0 <= i < |hs| :: ts[i] == TurnOf(log, hs[i])
  {
    seq(|hs|, i requires 0 <= i < |hs| => TurnOf(log, hs[i]))
  }

  /** The offsets of one partition, in the order they were settled. */
  function Offsets(hs: seq<Entry>, p: nat): seq<nat> {
    if hs == [] then []
    else
      var front, last := Offsets(hs[..|hs| - 1], p), hs[|hs| - 1];
      if last.Handled? && last.ref.partition == p then front + [last.ref.offset] else front
  }

  function EventsIn(dlq: seq<Letter>): set<Event> {
    set x | x in dlq && x.EventLetter? :: x.event
  }

  function RecordOf(log: Log, r: Ref): Record
    requires InLog(log, r)
  {
    log[r.partition][r.offset]
  }

  /* ----- what belongs in the DLQ ----- */

  /** Every order's ledger after the history. */
  ghost function LedgersAfter(log: Log, hs: seq<Entry>): OrderId -> Ledger
    requires AllInLog(log, hs)
  {
    o => Turns(o, TurnsOf(log, hs)).ledger
  }

  ghost function LedgersIn(t: Tables): OrderId -> Ledger {
    o => View(t, o)
  }

  /**
   Entry `h` owes the DLQ this letter, given the ledgers it found: what did not parse, is
   invalid, was rejected as data, or is for an order of another plan; and what a sweep sent.
   */
  ghost predicate Owes(ledgers: OrderId -> Ledger, log: Log, h: Entry, x: Letter)
    requires h.Handled? ==> InLog(log, h.ref)
  {
    match h
    case Handled(r, refused) => RecordOwes(ledgers, RecordOf(log, r), refused, x)
    case Expired(keys) => exists k :: k in keys && TimedOut(ledgers, k, x)
    case ExpiryFailed(keys) => exists k :: k in keys && TimedOut(ledgers, k, x)
  }

  ghost predicate RecordOwes(ledgers: OrderId -> Ledger, r: Record, refused: bool, x: Letter) {
    match r
    case Unparsable(raw) => x == RawLetter(raw, PARSE_ERROR)
    case Parsed(e) =>
      if refused then x == EventLetter(e, DB_REJECTED)
      else if Validate(e).Some? then x == EventLetter(e, INVALID_EVENT)
      else x == EventLetter(e, PLAN_MISMATCH) && OwnedElsewhere(ledgers(e.orderId), e.planId)
  }

  ghost predicate TimedOut(ledgers: OrderId -> Ledger, k: PendingKey, x: Letter) {
    k in ledgers(k.orderId).pending && x == EventLetter(ledgers(k.orderId).pending[k], BUFFER_TIMEOUT)
  }

  ghost predicate OwedAt(log: Log, hs: seq<Entry>, i: nat, x: Letter)
    requires AllInLog(log, hs) && i < |hs|
  {
    assert AllInLog(log, hs[..i]);
    Owes(LedgersAfter(log, hs[..i]), log, hs[i], x)
  }

  /** Some entry of the history owes the DLQ this letter. */
  ghost predicate Owed(log: Log, hs: seq<Entry>, x: Letter)
    requires AllInLog(log, hs)
  {
    exists i: nat :: i < |hs| && OwedAt(log, hs, i, x)
  }

  /** The DLQ got exactly the letters that the entry owes. */
  ghost predicate Pays(t: Tables, log: Log, h: Entry, more: seq<Letter>)
    requires h.Handled? ==> InLog(log, h.ref)
  {
    forall x :: x in more <==> Owes(LedgersIn(t), log, h, x)
  }

  /** The tables are what the history did to them, and the DLQ has the letters it owes, and no others. */
  ghost predicate Tracks(t: Tables, dlq: seq<Letter>, log: Log, hs: seq<Entry>) {
    && AllInLog(log, hs)
    && (forall x :: x in dlq <==> Owed(log, hs, x))
    && forall o ::
         && View(t, o) == Turns(o, TurnsOf(log, hs)).ledger
         && Turns(o, TurnsOf(log, hs)).letters <= EventsIn(dlq)
  }

  /** No record is settled before its predecessors in the partition, and no offset runs ahead of them. */
  ghost predicate InStep(log: Log, hs: seq<Entry>, offsets: seq<nat>) {
    && |offsets| == |log|
    && forall p | 0 <= p < |log| ::
         && Within(Offsets(hs, p), |log[p]|) && NoSkip(Offsets(hs, p))
         && offsets[p] <= High(Offsets(hs, p))
  }

  lemma {:induction false} TurnsOneMore(o: OrderId, log: Log, hs: seq<Entry>, h: Entry)
    requires AllInLog(log, hs) && (h.Handled? ==> InLog(log, h.ref))
    ensures AllInLog(log, hs + [h])
    ensures Turns(o, TurnsOf(log, hs + [h])) == Turned(o, Turns(o, TurnsOf(log, hs)), TurnOf(log, h))
  {
    var ts := TurnsOf(log, hs + [h]);
    assert ts[..|ts| - 1] == TurnsOf(log, hs);
  }

  /** The tables went from `t` to `t'`, and the DLQ took `more`, as the turn prescribes for every order. */
  ghost predicate Takes(t: Tables, t': Tables, turn: Turn, more: seq<Letter>) {
    forall o ::
      var g := Turned(o, Gate(View(t, o), {}), turn);
      View(t', o) == g.ledger && g.letters <= EventsIn(more)
  }

  lemma AllInLogOneMore(log: Log, hs: seq<Entry>, h: Entry)
    requires AllInLog(log, hs) && (h.Handled? ==> InLog(log, h.ref))
    ensures AllInLog(log, hs + [h])
  {
  }

  lemma SameOwed(t: Tables, log: Log, hs: seq<Entry>, h: Entry, x: Letter)
    requires AllInLog(log, hs) && (h.Handled? ==> InLog(log, h.ref))
    requires forall o :: View(t, o) == Turns(o, TurnsOf(log, hs)).ledger
    ensures Owes(LedgersIn(t), log, h, x) <==> Owes(LedgersAfter(log, hs), log, h, x)
  {
    forall k ensures TimedOut(LedgersIn(t), k, x) <==> TimedOut(LedgersAfter(log, hs), k, x) {
      assert LedgersIn(t)(k.orderId) == LedgersAfter(log, hs)(k.orderId);
    }
    if h.Handled? && RecordOf(log, h.ref).Parsed? {
      var o := RecordOf(log, h.ref).event.orderId;
      assert LedgersIn(t)(o) == LedgersAfter(log, hs)(o);
    }
  }

  lemma OwedOneMore(log: Log, hs: seq<Entry>, h: Entry, x: Letter)
    requires AllInLog(log, hs) && AllInLog(log, hs + [h])
    ensures Owed(log, hs + [h], x) <==> Owed(log, hs, x) || Owes(LedgersAfter(log, hs), log, (hs + [h])[|hs|], x)
  {
    var more := hs + [h];
    forall i: nat | i < |hs| ensures OwedAt(log, more, i, x) <==> OwedAt(log, hs, i, x) {
      assert more[..i] == hs[..i];
    }
    assert more[..|hs|] == hs;
    assert OwedAt(log, more, |hs|, x) <==> Owes(LedgersAfter(log, hs), log, more[|hs|], x);
  }

  lemma OwedStays(t: Tables, dlq: seq<Letter>, more: seq<Letter>, log: Log, hs: seq<Entry>, h: Entry)
    requires Tracks(t, dlq, log, hs) && AllInLog(log, hs + [h]) && (h.Handled? ==> InLog(log, h.ref))
    requires Pays(t, log, h, more)
    ensures forall x :: x in dlq + more <==> Owed(log, hs + [h], x)
  {
    forall x ensures x in dlq + more <==> Owed(log, hs + [h], x) {
      OwedOneMore(log, hs, h, x);
      SameOwed(t, log, hs, h, x);
    }
  }

  lemma TracksOneMore(t: Tables, t': Tables, dlq: seq<Letter>, more: seq<Letter>, log: Log, hs: seq<Entry>, h: Entry)
    requires Tracks(t, dlq, log, hs) && (h.Handled? ==> InLog(log, h.ref))
    requires Takes(t, t', TurnOf(log, h), more) && Pays(t, log, h, more)
    ensures Tracks(t', dlq + more, log, hs + [h])
  {
    AllInLogOneMore(log, hs, h);
    OwedStays(t, dlq, more, log, hs, h);
    forall o
      ensures View(t', o) == Turns(o, TurnsOf(log, hs + [h])).ledger
      ensures Turns(o, TurnsOf(log, hs + [h])).letters <= EventsIn(dlq + more)
    {
      TurnsOneMore(o, log, hs, h);
      var g := Turned(o, Gate(View(t, o), {}), TurnOf(log, h));
      assert View(t', o) == g.ledger && g.letters <= EventsIn(more);
      assert EventsIn(dlq + more) == EventsIn(dlq) + EventsIn(more);
    }
  }

  lemma StepTaken(t: Tables, e: Step, pos: nat, now: int, more: seq<Letter>)
    requires AllGood(t) && IsStep(e)
    requires NeedsLetter(View(t, e.orderId), e) ==> EventLetter(e, PLAN_MISMATCH) in more
    ensures Takes(t, DeliveredTables(t, e, pos, now), Settled(Parsed(e)), more)
  {
    DeliveredIsGood(t, e, pos, now);
  }

  lemma AbortTaken(t: Tables, e: Abort, pos: nat, now: int, more: seq<Letter>)
    requires AllGood(t) && IsAbort(e)
    requires NeedsLetter(View(t, e.orderId), e) ==> EventLetter(e, PLAN_MISMATCH) in more
    ensures Takes(t, AbortedTables(t, e, pos, now), Settled(Parsed(e)), more)
  {
    AbortedIsGood(t, e, pos, now);
  }

  /** An event that only the DLQ gets: it did not parse, is invalid, or was rejected as data. */
  lemma LetterTaken(t: Tables, turn: Turn, letter: Letter)
    requires turn.Settled? || turn.Refused?
    requires turn.record.Parsed? ==>
      letter.EventLetter? && letter.event == turn.record.event && (turn.Settled? ==> Validate(letter.event).Some?)
    ensures Takes(t, t, turn, [letter])
  {
  }

  /** The letters a handled record calls for, given the order it found. */
  function LettersFor(l: Ledger, r: Record, refused: bool): seq<Letter> {
    match r
    case Unparsable(raw) => [RawLetter(raw, PARSE_ERROR)]
    case Parsed(e) =>
      if refused then [EventLetter(e, DB_REJECTED)]
      else if Validate(e).Some? then [EventLetter(e, INVALID_EVENT)]
      else if OwnedElsewhere(l, e.planId) then [EventLetter(e, PLAN_MISMATCH)]
      else []
  }

  lemma RecordPays(t: Tables, log: Log, ref: Ref, refused: bool, o: OrderId)
    requires InLog(log, ref) && (RecordOf(log, ref).Parsed? ==> RecordOf(log, ref).event.orderId == o)
    ensures Pays(t, log, Handled(ref, refused), LettersFor(View(t, o), RecordOf(log, ref), refused))
  {
  }

  lemma {:induction false} OffsetsOneMore(hs: seq<Entry>, h: Entry, p: nat)
    ensures Offsets(hs + [h], p) ==
            if h.Handled? && h.ref.partition == p then Offsets(hs, p) + [h.ref.offset] else Offsets(hs, p)
  {
  }

  lemma {:induction false} HighOneMore(offsets: seq<nat>, n: nat)
    ensures High(offsets + [n]) == if n < High(offsets) then High(offsets) else n + 1
    ensures NoSkip(offsets + [n]) <==> NoSkip(offsets) && n <= High(offsets)
  {
  }

  lemma {:induction false} InStepOneMore(log: Log, hs: seq<Entry>, offsets: seq<nat>, h: Entry)
    requires InStep(log, hs, offsets)
    requires h.Handled? ==> InLog(log, h.ref) && h.ref.offset <= High(Offsets(hs, h.ref.partition))
    ensures InStep(log, hs + [h], offsets)
    ensures h.Handled? ==> h.ref.offset < High(Offsets(hs + [h], h.ref.partition))
  {
    forall p | 0 <= p < |log|
      ensures Within(Offsets(hs + [h], p), |log[p]|) && NoSkip(Offsets(hs + [h], p))
      ensures offsets[p] <= High(Offsets(hs + [h], p))
    {
      OffsetsOneMore(hs, h, p);
      if h.Handled? {
        HighOneMore(Offsets(hs, p), h.ref.offset);
      }
    }
    if h.Handled? {
      OffsetsOneMore(hs, h, h.ref.partition);
      HighOneMore(Offsets(hs, h.ref.partition), h.ref.offset);
    }
  }

  lemma {:induction false} BelowHighIsProcessed(offsets: seq<nat>, n: nat)
    requires NoSkip(offsets) && n < High(offsets)
    ensures n in offsets
  {
    var front := offsets[..|offsets| - 1];
    if n < High(front) {
      BelowHighIsProcessed(front, n);
    }
  }

  lemma {:induction false} OffsetsAreHandled(hs: seq<Entry>, p: nat, n: nat)
    requires n in Offsets(hs, p)
    ensures exists h :: h in hs && h.Handled? && h.ref == Ref(p, n)
  {
    var front, last := hs[..|hs| - 1], hs[|hs| - 1];
    if n in Offsets(front, p) {
      OffsetsAreHandled(front, p, n);
    } else {
      assert last in hs && last.Handled? && last.ref == Ref(p, n);
    }
  }

  /* ----- records in the order they were settled ----- */

  function Refs(hs: seq<Entry>): seq<Ref> {
    if hs == [] then []
    else
      var front, last := Refs(hs[..|hs| - 1]), hs[|hs| - 1];
      if last.Handled? then front + [last.ref] else front
  }

  /** The history grew by sweeps only. */
  ghost predicate OnlySweeps(hs: seq<Entry>, hs': seq<Entry>) {
    hs <= hs' && forall i | |hs| <= i < |hs'| :: !hs'[i].Handled?
  }

  lemma {:induction false} SweepsLeaveRefs(hs: seq<Entry>, hs': seq<Entry>)
    requires OnlySweeps(hs, hs')
    ensures Refs(hs') == Refs(hs)
    ensures forall p :: Offsets(hs', p) == Offsets(hs, p)
    decreases |hs'|
  {
    if |hs| < |hs'| {
      SweepsLeaveRefs(hs, hs'[..|hs'| - 1]);
    } else {
      assert hs == hs';
    }
  }

  lemma SweepsKeepInStep(log: Log, hs: seq<Entry>, hs': seq<Entry>, offsets: seq<nat>)
    requires OnlySweeps(hs, hs') && InStep(log, hs, offsets)
    ensures InStep(log, hs', offsets)
  {
    SweepsLeaveRefs(hs, hs');
  }

  /** The offset after the last record of each partition, where `refs` has one. */
  function Advance(offsets: seq<nat>, refs: seq<Ref>): (r: seq<nat>)
    ensures |r| == |offsets|
  {
    if refs == [] then offsets
    else
      var front, last := Advance(offsets, refs[..|refs| - 1]), refs[|refs| - 1];
      if last.partition < |front| then front[last.partition := last.offset + 1] else front
  }

  /** The broker may answer a poll from `offsets` with `batch`: each record is the next one of its partition. */
  ghost predicate Fetchable(log: Log, offsets: seq<nat>, batch: seq<Ref>) {
    |offsets| == |log| && forall i | 0 <= i < |batch| :: NextOf(log, offsets, batch, i)
  }

  ghost predicate NextOf(log: Log, offsets: seq<nat>, batch: seq<Ref>, i: nat)
    requires |offsets| == |log| && i < |batch|
  {
    InLog(log, batch[i]) && batch[i].offset == Advance(offsets, batch[..i])[batch[i].partition]
  }

  lemma {:induction false} AdvanceStep(offsets: seq<nat>, refs: seq<Ref>, i: nat)
    requires i < |refs|
    ensures var was := Advance(offsets, refs[..i]);
      Advance(offsets, refs[..i + 1]) ==
      if refs[i].partition < |was| then was[refs[i].partition := refs[i].offset + 1] else was
  {
    assert refs[..i + 1][..i] == refs[..i];
  }

  lemma {:induction false} AdvanceOneMore(log: Log, offsets: seq<nat>, batch: seq<Ref>, r: Ref)
    requires Fetchable(log, offsets, batch) && InLog(log, r)
    requires r.offset == Advance(offsets, batch)[r.partition]
    ensures Fetchable(log, offsets, batch + [r])
    ensures Advance(offsets, batch + [r]) == Advance(offsets, batch)[r.partition := r.offset + 1]
  {
    assert (batch + [r])[..|batch|] == batch;
    forall i | 0 <= i < |batch + [r]| ensures NextOf(log, offsets, batch + [r], i) {
      assert (batch + [r])[..i] == batch[..i];
      assert i < |batch| ==> NextOf(log, offsets, batch, i);
    }
  }

  /** The last of the records that is of partition `p`. */
  ghost predicate LastOf(refs: seq<Ref>, p: nat, i: nat) {
    i < |refs| && refs[i].partition == p && forall j | i < j < |refs| :: refs[j].partition != p
  }

  /** The offset advances past the last record of its partition, and stays where there is none. */
  lemma {:induction false} AdvanceMeans(offsets: seq<nat>, refs: seq<Ref>, p: nat)
    requires p < |offsets|
    ensures forall i: nat | LastOf(refs, p, i) :: Advance(offsets, refs)[p] == refs[i].offset + 1
    ensures (forall i: nat :: !LastOf(refs, p, i)) ==> Advance(offsets, refs)[p] == offsets[p]
  {
    if refs != [] {
      var n := |refs| - 1;
      var front := refs[..n];
      AdvanceMeans(offsets, front, p);
      if refs[n].partition == p {
        assert LastOf(refs, p, n);
      } else {
        forall i: nat ensures LastOf(refs, p, i) <==> LastOf(front, p, i) {
          assert forall j | 0 <= j < n :: front[j] == refs[j];
        }
      }
    }
  }

  /* ----- what a poll fetches ----- */

  function CountOf(asked: seq<nat>, p: nat): nat {
    if asked == [] then 0 else CountOf(asked[..|asked| - 1], p) + if asked[|asked| - 1] == p then 1 else 0
  }

  /** One record for each partition asked for, in that order, as long as it has more. */
  function Fetched(log: Log, offsets: seq<nat>, asked: seq<nat>): seq<Ref>
    requires |offsets| == |log|
  {
    if asked == [] then []
    else
      var front, p := Fetched(log, offsets, asked[..|asked| - 1]), asked[|asked| - 1];
      if p < |log| && Advance(offsets, front)[p] < |log[p]| then front + [Ref(p, Advance(offsets, front)[p])] else front
  }

  lemma {:induction false} FetchedOneMore(log: Log, offsets: seq<nat>, asked: seq<nat>, i: nat)
    requires |offsets| == |log| && i < |asked|
    ensures var front, p := Fetched(log, offsets, asked[..i]), asked[i];
      Fetched(log, offsets, asked[..i + 1]) ==
      if p < |log| && Advance(offsets, front)[p] < |log[p]| then front + [Ref(p, Advance(offsets, front)[p])] else front
  {
    assert asked[..i + 1][..i] == asked[..i];
  }

  lemma {:induction false} AdvanceByOne(offsets: seq<nat>, refs: seq<Ref>, r: Ref)
    ensures var was := Advance(offsets, refs);
      Advance(offsets, refs + [r]) == if r.partition < |was| then was[r.partition := r.offset + 1] else was
  {
    assert (refs + [r])[..|refs|] == refs;
  }

  ghost predicate WithinLog(log: Log, offsets: seq<nat>) {
    |offsets| == |log| && forall p | 0 <= p < |log| :: offsets[p] <= |log[p]|
  }

  /** Everything that was asked for and exists is fetched, once, and from where the last poll stopped. */
  lemma {:induction false} FetchedMeans(log: Log, offsets: seq<nat>, asked: seq<nat>)
    requires WithinLog(log, offsets)
    ensures Fetchable(log, offsets, Fetched(log, offsets, asked)) && |Fetched(log, offsets, asked)| <= |asked|
    ensures forall p | 0 <= p < |log| ::
              Advance(offsets, Fetched(log, offsets, asked))[p] == Backoff.Min(offsets[p] + CountOf(asked, p), |log[p]|)
  {
    if asked != [] {
      var n := |asked| - 1;
      FetchedMeans(log, offsets, asked[..n]);
      var front, p := Fetched(log, offsets, asked[..n]), asked[n];
      if p < |log| && Advance(offsets, front)[p] < |log[p]| {
        AdvanceOneMore(log, offsets, front, Ref(p, Advance(offsets, front)[p]));
      }
    }
  }

  /** From `from` to `to`: in every partition, as many records as were asked for and exist. */
  ghost predicate FetchedFor(log: Log, from: seq<nat>, to: seq<nat>, asked: seq<nat>) {
    && |from| == |to| == |log|
    && forall p | 0 <= p < |log| :: to[p] == Backoff.Min(from[p] + CountOf(asked, p), |log[p]|)
  }

  lemma {:induction false} CountOfBoth(a: seq<nat>, b: seq<nat>, p: nat)
    ensures CountOf(a + b, p) == CountOf(a, p) + CountOf(b, p)
  {
    if b == [] {
      assert a + b == a;
    } else {
      assert (a + b)[..|a + b| - 1] == a + b[..|b| - 1];
      CountOfBoth(a, b[..|b| - 1], p);
    }
  }

  predicate AtMost(a: seq<nat>, b: seq<nat>) {
    |a| == |b| && forall p | 0 <= p < |a| :: a[p] <= b[p]
  }

  /** Offsets at or below the fetched ones only go forward, and stay at or below them. */
  lemma {:induction false} AdvanceForward(log: Log, low: seq<nat>, start: seq<nat>, batch: seq<Ref>, n: nat)
    requires Fetchable(log, start, batch) && AtMost(low, start) && n <= |batch|
    ensures AtMost(low, Advance(low, batch[..n]))
    ensures AtMost(Advance(low, batch[..n]), Advance(start, batch[..n]))
    ensures AtMost(Advance(start, batch[..n]), Advance(start, batch))
    decreases n
  {
    if n > 0 {
      AdvanceForward(log, low, start, batch, n - 1);
      AdvanceStep(low, batch, n - 1);
      AdvanceStep(start, batch, n - 1);
      assert NextOf(log, start, batch, n - 1);
    }
    FetchedForward(log, start, batch, n);
  }

  lemma {:induction false} FetchedForward(log: Log, start: seq<nat>, batch: seq<Ref>, n: nat)
    requires Fetchable(log, start, batch) && n <= |batch|
    ensures AtMost(Advance(start, batch[..n]), Advance(start, batch))
    decreases |batch| - n
  {
    if n < |batch| {
      FetchedForward(log, start, batch, n + 1);
      AdvanceStep(start, batch, n);
      assert NextOf(log, start, batch, n);
    } else {
      assert batch[..n] == batch;
    }
  }

  lemma {:induction false} NextIsDue(log: Log, hs: seq<Entry>, offsets: seq<nat>, batch: seq<Ref>, i: nat)
    requires Fetchable(log, offsets, batch) && i < |batch|
    requires InStep(log, hs, Advance(offsets, batch[..i]))
    ensures InLog(log, batch[i]) && batch[i].offset <= High(Offsets(hs, batch[i].partition))
  {
    assert NextOf(log, offsets, batch, i);
  }

  /** Settling one more record takes any offsets that are in step past it. */
  lemma {:induction false} SettledOneMore(log: Log, hs: seq<Entry>, offsets: seq<nat>, refs: seq<Ref>, h: Entry)
    requires InStep(log, hs, Advance(offsets, refs))
    requires h.Handled? && InLog(log, h.ref) && h.ref.offset <= High(Offsets(hs, h.ref.partition))
    ensures InStep(log, hs + [h], Advance(offsets, refs + [h.ref]))
    ensures Refs(hs + [h]) == Refs(hs) + [h.ref]
  {
    assert (refs + [h.ref])[..|refs|] == refs;
    InStepOneMore(log, hs, Advance(offsets, refs), h);
  }

  /** A sweep before the next record changes nothing about the offsets. */
  lemma {:induction false} SweptInStep(
    log: Log, hs: seq<Entry>, swept: seq<Entry>, start: seq<nat>, batch: seq<Ref>, i: nat)
    requires Fetchable(log, start, batch) && i < |batch| && OnlySweeps(hs, swept)
    requires InStep(log, hs, Advance(start, batch[..i]))
    ensures InStep(log, swept, Advance(start, batch[..i])) && Refs(swept) == Refs(hs)
    ensures InLog(log, batch[i]) && batch[i].offset <= High(Offsets(swept, batch[i].partition))
  {
    SweepsLeaveRefs(hs, swept);
    SweepsKeepInStep(log, hs, swept, Advance(start, batch[..i]));
    NextIsDue(log, swept, start, batch, i);
  }

  lemma {:induction false} NextSettled(
    log: Log, swept: seq<Entry>, offsets: seq<nat>, batch: seq<Ref>, i: nat, h: Entry)
    requires i < |batch| && InStep(log, swept, Advance(offsets, batch[..i]))
    requires h.Handled? && h.ref == batch[i]
    requires InLog(log, batch[i]) && batch[i].offset <= High(Offsets(swept, batch[i].partition))
    ensures InStep(log, swept + [h], Advance(offsets, batch[..i + 1]))
    ensures Refs(swept + [h]) == Refs(swept) + [batch[i]]
  {
    assert batch[..i + 1] == batch[..i] + [h.ref];
    SettledOneMore(log, swept, offsets, batch[..i], h);
  }

  /* ----- sweeps ----- */

  function Timeouts(es: seq<Step>): (letters: seq<Letter>)
    ensures |letters| == |es| && forall i | 0 <= i < |es| :: letters[i] == EventLetter(es[i], BUFFER_TIMEOUT)
  {
    seq(|es|, i requires 0 <= i < |es| => EventLetter(es[i], BUFFER_TIMEOUT))
  }

  lemma SentIsLettered(t: Tables, rows: seq<PendingKey>, sent: seq<Step>, o: OrderId)
    requires |sent| <= |rows|
    requires forall i | 0 <= i < |sent| :: rows[i] in t.pending && t.pending[rows[i]].event == sent[i]
    ensures Sent(View(t, o), KeySet(rows[..|sent|])) <= EventsIn(Timeouts(sent))
  {
  }

  lemma SweepPays(t: Tables, log: Log, rows: seq<PendingKey>, sent: seq<Step>, h: Entry)
    requires |sent| <= |rows| && h in {Expired(KeySet(rows[..|sent|])), ExpiryFailed(KeySet(rows[..|sent|]))}
    requires forall i | 0 <= i < |sent| :: rows[i] in t.pending && t.pending[rows[i]].event == sent[i]
    ensures Pays(t, log, h, Timeouts(sent))
  {
    forall x ensures x in Timeouts(sent) <==> exists k :: k in KeySet(rows[..|sent|]) && TimedOut(LedgersIn(t), k, x) {
      if x in Timeouts(sent) {
        var i :| 0 <= i < |sent| && Timeouts(sent)[i] == x;
        assert rows[..|sent|][i] == rows[i];
        assert rows[i] in KeySet(rows[..|sent|]) && TimedOut(LedgersIn(t), rows[i], x);
      }
      if k :| k in KeySet(rows[..|sent|]) && TimedOut(LedgersIn(t), k, x) {
        var i :| 0 <= i < |sent| && rows[..|sent|][i] == k;
        assert Timeouts(sent)[i] == x;
      }
    }
  }

  lemma SweepUndoneTaken(t: Tables, rows: seq<PendingKey>, sent: seq<Step>)
    requires |sent| <= |rows|
    requires forall i | 0 <= i < |sent| :: rows[i] in t.pending && t.pending[rows[i]].event == sent[i]
    ensures Takes(t, t, SweepUndone(KeySet(rows[..|sent|])), Timeouts(sent))
  {
  }

  lemma SweptTaken(t: Tables, rows: seq<PendingKey>, sent: seq<Step>)
    requires AllGood(t) && |sent| == |rows|
    requires forall i | 0 <= i < |sent| :: rows[i] in t.pending && t.pending[rows[i]].event == sent[i]
    ensures Takes(t, Exec(t, DeletePending(KeySet(rows))), Swept(KeySet(rows)), Timeouts(sent))
  {
    assert rows[..|sent|] == rows;
    SweptIsGood(t, KeySet(rows));
    forall o ensures Sent(View(t, o), KeySet(rows)) <= EventsIn(Timeouts(sent)) {
      SentIsLettered(t, rows, sent, o);
    }
  }
}

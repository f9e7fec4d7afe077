/** The three tables of the store, the writes its statements make, and each order's view of them. */
module Tables {
  import opened Models
  import opened Ledger

  datatype PendingRow = PendingRow(event: Step, receivedAt: int)

  /** `position` is the identity column; the last five are the delivery state the dispatcher keeps. */
  datatype OutboxRow = OutboxRow(
    position: nat,
    event: Event,
    processed: bool,
    attempts: nat,
    nextAttemptAt: int,
    leaseUntil: Option<int>,
    dead: bool)

  datatype Tables = Tables(
    orders: map<OrderId, OrderRow>,
    pending: map<PendingKey, PendingRow>,
    outbox: seq<OutboxRow>)

  const EMPTY_TABLES := Tables(map[], map[], [])

  function FreshRow(position: nat, e: Event, now: int): OutboxRow {
    OutboxRow(position, e, false, 0, now, None, false)
  }

  function NotesOf(outbox: seq<OutboxRow>, o: OrderId): seq<Event> {
    if outbox == [] then []
    else
      var front, last := NotesOf(outbox[..|outbox| - 1], o), outbox[|outbox| - 1];
      if last.event.orderId == o then front + [last.event] else front
  }

  function BufferOf(pending: map<PendingKey, PendingRow>, o: OrderId): Buffer {
    map k | k in pending && k.orderId == o :: pending[k].event
  }

  /** What the tables say about one order. */
  function View(t: Tables, o: OrderId): Ledger {
    Ledger(RowIn(t, o), BufferOf(t.pending, o), NotesOf(t.outbox, o))
  }

  function RowIn(t: Tables, o: OrderId): Option<OrderRow> {
    if o in t.orders then Some(t.orders[o]) else None
  }

  function KeySet(rows: seq<PendingKey>): set<PendingKey> {
    set k | k in rows
  }

  /* ----- statements ----- */

  datatype Write =
    | PutOrder(order: OrderId, row: OrderRow)
    | PutPending(key: PendingKey, buffered: PendingRow)
    | DeletePending(keys: set<PendingKey>)
    | Append(entry: OutboxRow)

  function Exec(t: Tables, w: Write): Tables {
    match w
    case PutOrder(o, row) => t.(orders := t.orders[o := row])
    case PutPending(k, row) => t.(pending := t.pending[k := row])
    case DeletePending(keys) => t.(pending := t.pending - keys)
    case Append(row) => t.(outbox := t.outbox + [row])
  }

  function ExecAll(t: Tables, ws: seq<Write>): Tables {
    if ws == [] then t else Exec(ExecAll(t, ws[..|ws| - 1]), ws[|ws| - 1])
  }

  /** The same write seen from one order. */
  function Effect(o: OrderId, l: Ledger, w: Write): Ledger {
    match w
    case PutOrder(p, row) => if p == o then l.(row := Some(row)) else l
    case PutPending(k, row) => if k.orderId == o then l.(pending := l.pending[k := row.event]) else l
    case DeletePending(keys) => l.(pending := l.pending - keys)
    case Append(row) => if row.event.orderId == o then l.(notes := l.notes + [row.event]) else l
  }

  function EffectAll(o: OrderId, l: Ledger, ws: seq<Write>): Ledger {
    if ws == [] then l else Effect(o, EffectAll(o, l, ws[..|ws| - 1]), ws[|ws| - 1])
  }

  lemma ViewOfExec(t: Tables, w: Write, o: OrderId)
    ensures View(Exec(t, w), o) == Effect(o, View(t, o), w)
  {
    match w
    case PutOrder(_, _) =>
    case PutPending(k, row) =>
      assert BufferOf(t.pending[k := row], o) ==
             if k.orderId == o then BufferOf(t.pending, o)[k := row.event] else BufferOf(t.pending, o);
    case DeletePending(keys) =>
      assert BufferOf(t.pending - keys, o) == BufferOf(t.pending, o) - keys;
    case Append(row) =>
      assert (t.outbox + [row])[..|t.outbox + [row]| - 1] == t.outbox;
  }

  lemma {:induction false} ViewOfExecAll(t: Tables, ws: seq<Write>, o: OrderId)
    ensures View(ExecAll(t, ws), o) == EffectAll(o, View(t, o), ws)
  {
    if ws != [] {
      ViewOfExecAll(t, ws[..|ws| - 1], o);
      ViewOfExec(ExecAll(t, ws[..|ws| - 1]), ws[|ws| - 1], o);
    }
  }

  lemma {:induction false} EffectOneMore(o: OrderId, l: Ledger, ws: seq<Write>, w: Write)
    ensures EffectAll(o, l, ws + [w]) == Effect(o, EffectAll(o, l, ws), w)
  {
  }

  lemma {:induction false} EffectThree(o: OrderId, l: Ledger, ws: seq<Write>, a: Write, b: Write, c: Write)
    ensures EffectAll(o, l, ws + [a, b, c]) == Effect(o, Effect(o, Effect(o, EffectAll(o, l, ws), a), b), c)
  {
    assert ws + [a, b, c] == ((ws + [a]) + [b]) + [c];
    EffectOneMore(o, l, ws, a);
    EffectOneMore(o, l, ws + [a], b);
    EffectOneMore(o, l, (ws + [a]) + [b], c);
  }
}

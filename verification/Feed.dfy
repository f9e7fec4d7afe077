/** The store writes the outbox that the dispatchers work on: its commits are what they may find added. */
module Feed {
  import opened Outbox
  import Serial
  import opened SerialHistory
  import Dispatch

  /** Dispatchers may start from any outbox that concurrent transactions have left. */
  lemma StoreStartsDispatch(n: nat, actions: seq<Serial.Action>, states: seq<Serial.Sys>, i: nat)
    requires Serial.IsRun(n, actions, states) && i < |states|
    ensures Dispatch.StartsFrom(states[i].tables.outbox)
  {
    PositionsHold(n, actions, states, i);
  }

  /**
   Each row that a transaction commits, one after the other, is an entry that may be added
   to the outbox, whatever the dispatchers have recorded on the rows before it.
   */
  lemma CommitsMayBeEnqueued(
    n: nat, actions: seq<Serial.Action>, states: seq<Serial.Sys>, i: nat, c: Config, s: Dispatch.Net, k: nat)
    requires Serial.IsRun(n, actions, states) && i < |actions|
    requires |states[i].tables.outbox| <= k < |states[i + 1].tables.outbox|
    requires SameEvents(s.rows, states[i + 1].tables.outbox[..k])
    ensures states[i].tables.outbox <= states[i + 1].tables.outbox
    ensures Dispatch.Enabled(c, s, Dispatch.Enqueue(states[i + 1].tables.outbox[k]))
  {
    PositionsHold(n, actions, states, i + 1);
    Serial.RunKeepsInv(n, actions, states, i);
    ActDraws(states[i], actions[i]);
    var rows := states[i + 1].tables.outbox;
    forall j | 0 <= j < |s.rows| && s.rows[j].event.orderId == rows[k].event.orderId
      ensures s.rows[j].position < rows[k].position
    {
      assert rows[..k][j] == rows[j];
    }
  }
}

/** The event envelope and the checks that run before anything is stored. */
module Models {
  datatype Option<+T> = None | Some(value: T)

  type PlanId = string

  /** `uuid.Parse` either accepts the text, and then the id is its 128-bit value, or rejects it. */
  datatype OrderId = Uuid(value: nat) | Malformed(text: string)

  datatype EventType =
    | OrderCreated
    | InventoryValidated
    | PaymentProcessed
    | OrderShipped
    | OrderCompleted
    | AbortPlan
    | Unknown(name: string)

  datatype Status =
    | StatusPending
    | StatusValidated
    | StatusPaid
    | StatusShipped
    | StatusCompleted
    | StatusAborted

  /** `userId` and `totalAmount` are the two keys of the data map that the server reads. */
  datatype Event = Event(
    eventId: string,
    eventType: EventType,
    planId: PlanId,
    seqId: Option<int>,
    orderId: OrderId,
    userId: Option<string>,
    totalAmount: Option<real>)

  datatype Invalid = MissingPlanId | BadOrderId | UnknownType | MissingSeq | BadSeq(got: int)

  function StatusFromEventType(t: EventType): Option<Status> {
    match t
    case OrderCreated => Some(StatusPending)
    case InventoryValidated => Some(StatusValidated)
    case PaymentProcessed => Some(StatusPaid)
    case OrderShipped => Some(StatusShipped)
    case OrderCompleted => Some(StatusCompleted)
    case AbortPlan => Some(StatusAborted)
    case Unknown(_) => None
  }

  /** None is acceptance; an abort is accepted whatever its seq_id. */
  function Validate(e: Event): Option<Invalid> {
    if e.planId == "" then Some(MissingPlanId)
    else if !e.orderId.Uuid? then Some(BadOrderId)
    else if e.eventType == AbortPlan then None
    else if StatusFromEventType(e.eventType).None? then Some(UnknownType)
    else if e.seqId.None? then Some(MissingSeq)
    else if e.seqId.value < 1 then Some(BadSeq(e.seqId.value))
    else None
  }

  /** A sequenced event of a known type: what `ApplyEvent` is written for. */
  predicate Sequenced(e: Event) {
    && e.seqId.Some? && 1 <= e.seqId.value
    && !e.eventType.AbortPlan? && !e.eventType.Unknown?
  }

  type Step = e: Event | Sequenced(e)
    witness Event("", OrderCreated, "p", Some(1), Uuid(0), None, None)

  /** What `AbortPlan` is written for. */
  type Abort = e: Event | e.eventType.AbortPlan?
    witness Event("", AbortPlan, "p", None, Uuid(0), None, None)

  /** The envelopes that the consumer routes to `ApplyEvent`. */
  predicate IsStep(e: Event) {
    Validate(e).None? && e.eventType != AbortPlan
  }

  /** The envelopes that the consumer routes to `AbortPlan`. */
  predicate IsAbort(e: Event) {
    Validate(e).None? && e.eventType == AbortPlan
  }

  function SeqOf(e: Step): (n: int)
    ensures 1 <= n
  {
    e.seqId.value
  }

  /** Each step has its own status, and none is the aborted one: only an abort can make an order aborted. */
  function StatusOf(e: Step): (s: Status)
    ensures s != StatusAborted
    ensures s == StatusPending <==> e.eventType == OrderCreated
    ensures s == StatusValidated <==> e.eventType == InventoryValidated
    ensures s == StatusPaid <==> e.eventType == PaymentProcessed
    ensures s == StatusShipped <==> e.eventType == OrderShipped
    ensures s == StatusCompleted <==> e.eventType == OrderCompleted
  {
    StatusFromEventType(e.eventType).value
  }

  function UserOf(e: Event): (user: string)
    ensures e.userId == Some(user) || (e.userId.None? && user == "unknown")
  {
    if e.userId.Some? then e.userId.value else "unknown"
  }

  /** The checks, in the order in which they are made: each reason is given exactly by the first that fails. */
  lemma ValidateMeans(e: Event)
    ensures var v, plan, uuid, abort := Validate(e), e.planId != "", e.orderId.Uuid?, e.eventType == AbortPlan;
      var kind := e.eventType in {OrderCreated, InventoryValidated, PaymentProcessed, OrderShipped, OrderCompleted};
      && (v.None? <==> plan && uuid && (abort || (kind && exists n :: e.seqId == Some(n) && 1 <= n)))
      && (v == Some(MissingPlanId) <==> !plan)
      && (v == Some(BadOrderId) <==> plan && !uuid)
      && (v == Some(UnknownType) <==> plan && uuid && !abort && !kind)
      && (v == Some(MissingSeq) <==> plan && uuid && kind && e.seqId.None?)
      && (v.Some? && v.value.BadSeq? <==> plan && uuid && kind && exists n :: e.seqId == Some(n) && n < 1)
  {
    if e.seqId.Some? {
      assert e.seqId == Some(e.seqId.value);
    }
  }
}

/** The ordering rules for plan events: pure decisions over an order's persisted progress. */
module Sequencing {
  import opened Models

  datatype Outcome = Apply | Duplicate | Buffer | Discard | PlanMismatch | Tombstone

  /** `Missing` is the zero OrderState, an order with no row yet. */
  datatype OrderState = Missing | Existing(planId: PlanId, lastSeq: int, status: Status)

  function Decide(s: OrderState, planId: PlanId, seqId: int): Outcome {
    match s
    case Missing =>
      if seqId == 1 then Apply else Buffer
    case Existing(owner, lastSeq, status) =>
      if owner != planId then PlanMismatch
      else if status == StatusAborted then Discard
      else if seqId <= lastSeq then Duplicate
      else if seqId == lastSeq + 1 then Apply
      else Buffer
  }

  function DecideAbort(s: OrderState, planId: PlanId): Outcome {
    match s
    case Missing => Tombstone
    case Existing(owner, _, status) =>
      if owner != planId then PlanMismatch
      else if status == StatusAborted then Duplicate
      else if status == StatusCompleted then Discard
      else Apply
  }
}

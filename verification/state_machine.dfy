/** app/order_service/state_machine.py */
module StateMachine {
  import opened Events

  datatype Status = PENDING | INVENTORY_RESERVED | COMPLETED | REJECTED | PAYMENT_FAILED

  const TERMINAL: set<Status> := {COMPLETED, REJECTED, PAYMENT_FAILED}

  function RequestedBy(kind: EventType): Option<Status> {
    match kind
    case InventoryReserved => Some(INVENTORY_RESERVED)
    case InventoryRejected => Some(REJECTED)
    case PaymentSucceeded => Some(COMPLETED)
    case PaymentFailed => Some(PAYMENT_FAILED)
    case _ => None
  }

  function AllowedFrom(current: Status): set<Status> {
    match current
    case PENDING => {INVENTORY_RESERVED, REJECTED, COMPLETED, PAYMENT_FAILED}
    case INVENTORY_RESERVED => {COMPLETED, PAYMENT_FAILED}
    case _ => {}
  }

  function NextStatus(current: Status, kind: EventType): Status {
    match RequestedBy(kind)
    case None => current
    case Some(requested) =>
      if requested == current then current
      else if requested !in AllowedFrom(current) then current
      else requested
  }

  /** How far along its life an order is: no status change ever lowers it. */
  function Rank(s: Status): nat {
    match s
    case PENDING => 0
    case INVENTORY_RESERVED => 1
    case _ => 2
  }
}

/** app/notification_service/service.py: one stored notification per event. */
module Notifications {
  import opened Events

  datatype Kind = ORDER_CONFIRMED | ORDER_FAILED

  /** A message is text with the order's identifier quoted in it. */
  datatype Part = Text(text: string) | Quoted(order: OrderId)

  datatype Notification = Notification(order: OrderId, customerId: string, kind: Kind, message: seq<Part>)

  /** The notification table is keyed by event id, so it is also the record of processed events. */
  type NotificationDb = map<EventId, Notification>

  const EMPTY: NotificationDb := map[]

  function ConfirmationOf(o: OrderId): seq<Part> {
    [Text("Order "), Quoted(o), Text(" was completed successfully.")]
  }

  function ApologyFor(o: OrderId, reason: string): seq<Part> {
    [Text("Order "), Quoted(o), Text(" failed: " + reason + ".")]
  }

  function NotificationFor(e: Event): Notification {
    var customerId := e.payload.customerId.GetOr("unknown");
    if e.kind.OrderCompleted? then Notification(OrderIdOf(e), customerId, ORDER_CONFIRMED, ConfirmationOf(OrderIdOf(e)))
    else Notification(OrderIdOf(e), customerId, ORDER_FAILED,
                      ApologyFor(OrderIdOf(e), e.payload.reason.GetOr("unknown_reason")))
  }

  function Handle(db: NotificationDb, e: Event, unused: Id): Tx<NotificationDb> {
    if e.id in db then Ok(db, unused) else Ok(db[e.id := NotificationFor(e)], unused)
  }

  /** The service's session. */
  class NotificationStore {
    var notifications: NotificationDb

    constructor ()
      ensures notifications == EMPTY
    {
      notifications := map[];
    }

    method HandleDomainEvent(e: Event, ghost unused: Id)
      modifies this
      ensures Ok(notifications, unused) == Handle(old(notifications), e, unused)
    {
      if e.id in notifications {
        return;
      }
      var o := OrderIdOf(e);
      var kind, message;
      if e.kind.OrderCompleted? {
        kind := ORDER_CONFIRMED;
        message := [Text("Order "), Quoted(o), Text(" was completed successfully.")];
      } else {
        kind := ORDER_FAILED;
        message := [Text("Order "), Quoted(o), Text(" failed: " + e.payload.reason.GetOr("unknown_reason") + ".")];
      }
      notifications := notifications[e.id := Notification(o, e.payload.customerId.GetOr("unknown"), kind, message)];
    }
  }
}

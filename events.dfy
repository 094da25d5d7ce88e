/** The event envelope shared by producers, the dispatcher and the handlers. */
module Events {

  /** An event type is an open string type: any string is a valid type,
      the named constants below are only the ones the system uses. */
  type EventType = string

  const UserCreated: EventType := "USER_CREATED"
  const UserUpdated: EventType := "USER_UPDATED"
  const UserDeleted: EventType := "USER_DELETED"
  const OrderPlaced: EventType := "ORDER_PLACED"
  const OrderCancelled: EventType := "ORDER_CANCELLED"
  const OrderShipped: EventType := "ORDER_SHIPPED"
  const PaymentSuccess: EventType := "PAYMENT_SUCCESS"
  const PaymentFailed: EventType := "PAYMENT_FAILED"
  const PaymentRefunded: EventType := "PAYMENT_REFUNDED"
  const SystemAlert: EventType := "SYSTEM_ALERT"
  const InventoryLow: EventType := "INVENTORY_LOW"
  const ReviewAdded: EventType := "REVIEW_ADDED"
  // The literal keeps the repository's spelling, typo included.
  const PromoCodeUsed: EventType := "PROMO_CODE_USERD"

  /** Every named event type, in the order the demo program registers analytics
      for them (the alert type last). The constants are pairwise
      distinct, so each one names its own registry key. */
  function AllEventTypes(): (ts: seq<EventType>)
    ensures |ts| == 13
    ensures forall i, j :: 0 <= i < j < |ts| ==> ts[i] != ts[j]
    ensures PromoCodeUsed in ts && PromoCodeUsed == "PROMO_CODE_USERD"
  {
    [UserCreated, UserUpdated, UserDeleted,
     OrderPlaced, OrderCancelled, OrderShipped,
     PaymentSuccess, PaymentFailed, PaymentRefunded,
     InventoryLow, ReviewAdded, PromoCodeUsed,
     SystemAlert]
  }

  /** The dynamic variant of the opaque payload. Only the urgency of an
      inventory record is ever inspected, so the other variants carry no data;
      `Other` stands for nil or a value of any type not listed here. */
  datatype Payload =
    | UserData
    | OrderData
    | PaymentData
    | InventoryData(urgency: string)
    | ReviewData
    | PromoCodeData
    | AlertData
    | Other

  /** The envelope. The timestamp is an opaque instant that nothing inspects. */
  datatype Event = Event(id: string, eventType: EventType, timestamp: int, source: string, payload: Payload)

  /** What `Handle` returns: nil, or an error with its message. */
  datatype Outcome = Pass | Fail(message: string)
}

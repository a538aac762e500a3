/** Identifiers and the events the services exchange. An event's id is the position of its row in the
    producer's outbox. */
module Events {
  import opened OrderState

  type OrderId = nat
  type OutletId = nat
  type ServiceId = nat
  type PaymentId = nat
  type RefundId = nat

  /** The values of orders.payment_status; a payments row takes all but Unpaid. */
  datatype PayStatus = Unpaid | Pending | Failed | Paid | Refunded

  datatype PayKind = CreatedEvent | PaidEvent | FailedEvent | RefundedEvent

  /** payment.created, payment.paid, payment.failed and payment.refunded. */
  datatype PayEvent = PayEvent(kind: PayKind, payment: PaymentId, order: OrderId, amount: int)

  datatype MoveName = StatusChanged | OrderCompleted | OrderCancelled

  /** order.created, order.weighed, and the three names transitionStatusTx picks from. */
  datatype CoreEvent =
    | OrderCreated(order: OrderId, outlet: OutletId)
    | OrderWeighed(order: OrderId, subtotal: int, tax: int, total: int)
    | OrderMoved(name: MoveName, order: OrderId, from: Status, to: Status)

  /** An outbox row as Core, Payment and the consumers see it; the relay's columns are in module Relay. */
  datatype OutboxRow<E> = OutboxRow(event: E, createdAt: int)
}

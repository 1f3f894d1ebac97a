/** The enumerations that orders and payments share (frontend/lib/api-types.ts, backend/prisma/schema.prisma). */
module OrderTypes {
  datatype OrderStatus = PENDING | CONFIRMED | FULFILLED | CANCELLED

  datatype Method = CARD | CASH

  datatype PaymentStatus = UNPAID | AWAITING | FAILED | PAID

  datatype RefundStatus = NO_REFUND | REQUESTED | IN_PROGRESS | REFUND_FAILED | REFUNDED

  datatype AttemptStatus = STARTED | REQUIRES_ACTION | SUCCEEDED | ATTEMPT_FAILED | CANCELED
}

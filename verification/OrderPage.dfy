/**
 * The order page's action guards against the services' checks
 * (frontend/components/orders/order-detail-page.tsx:137-228,
 * backend/src/domain/payment/payment.utils.ts:14-50).
 */
module OrderPage {
  import opened OrderTypes
  import opened Lifecycle
  import opened Wrappers
  import SeedHistories

  datatype Financial =
    | NoPayment | FinancialUnpaid | PaymentPending | PaymentFailed | FinancialPaid
    | RefundRequested | RefundIsPending | RefundHasFailed | FinancialRefunded

  // The refund's status wins unless there is none.
  function DeriveFinancialStatus(payment: Option<Payment>): Financial {
    if payment.None? then NoPayment
    else
      var p := payment.value;
      if p.refundStatus == REFUNDED then FinancialRefunded
      else if p.refundStatus == REQUESTED then RefundRequested
      else if p.refundStatus == IN_PROGRESS then RefundIsPending
      else if p.refundStatus == REFUND_FAILED then RefundHasFailed
      else if p.paymentStatus == PAID then FinancialPaid
      else if p.paymentStatus == AWAITING then PaymentPending
      else if p.paymentStatus == FAILED then PaymentFailed
      else FinancialUnpaid
  }

  /** What each financial status says: the refund's status first, and the payment's where there is no refund. */
  lemma FinancialStatusIs(payment: Option<Payment>)
    ensures var f := DeriveFinancialStatus(payment);
            && (f == NoPayment <==> payment.None?)
            && (f == FinancialRefunded <==> payment.Some? && payment.value.refundStatus == REFUNDED)
            && (f == RefundRequested <==> payment.Some? && payment.value.refundStatus == REQUESTED)
            && (f == RefundIsPending <==> payment.Some? && payment.value.refundStatus == IN_PROGRESS)
            && (f == RefundHasFailed <==> payment.Some? && payment.value.refundStatus == REFUND_FAILED)
            && (payment.Some? && payment.value.refundStatus == NO_REFUND ==>
                  && (f == FinancialPaid <==> payment.value.paymentStatus == PAID)
                  && (f == PaymentPending <==> payment.value.paymentStatus == AWAITING)
                  && (f == PaymentFailed <==> payment.value.paymentStatus == FAILED)
                  && (f == FinancialUnpaid <==> payment.value.paymentStatus == UNPAID))
  {
  }

  predicate HasActiveRefundFlow(payment: Option<Payment>) {
    payment.Some? && (payment.value.refundStatus == REQUESTED || payment.value.refundStatus == IN_PROGRESS)
  }

  predicate CanProcessPayment(o: Order) {
    var financial := DeriveFinancialStatus(o.payment);
    o.status == CONFIRMED &&
    (financial == FinancialUnpaid || financial == PaymentFailed || financial == PaymentPending)
  }

  predicate CanRefundPayment(o: Order) {
    && o.payment.Some? && o.payment.value.paymentStatus == PAID
    && (o.payment.value.refundStatus == NO_REFUND || o.payment.value.refundStatus == REFUND_FAILED)
  }

  function GetAvailableTransitions(o: Order): seq<OrderStatus> {
    if o.status == PENDING then [CONFIRMED, CANCELLED]
    else if o.status == CONFIRMED then
      (if DeriveFinancialStatus(o.payment) == FinancialPaid then [FULFILLED] else []) +
      (if o.payment.Some? && o.payment.value.paymentStatus != PAID && !HasActiveRefundFlow(o.payment)
       then [CANCELLED] else [])
    else if
      o.status == CANCELLED && (o.payment.Some? ==> o.payment.value.paymentStatus != PAID) &&
      !HasActiveRefundFlow(o.payment)
    then [PENDING]
    else []
  }

  // The operation a transition asks the service for.
  function Operation(to: OrderStatus, answer: Intent): Event {
    match to
    case CONFIRMED => Confirm
    case FULFILLED => Fulfill
    case CANCELLED => Cancel(answer)
    case PENDING => Reopen(answer)
  }

  /**
   * The page offers exactly the transitions the service accepts, except for a
   * refunded payment that a late report took out of PAID.
   */
  lemma OfferedIffAccepted(o: Order, to: OrderStatus, answer: Intent)
    requires Consistent(o)
    ensures (to in GetAvailableTransitions(o) <==> Accepts(o, Operation(to, answer))) <==>
            !(&& o.payment.Some? && o.payment.value.refundStatus == REFUNDED && o.payment.value.paymentStatus != PAID
              && ((o.status == CONFIRMED && to == CANCELLED) || (o.status == CANCELLED && to == PENDING)))
  {
  }

  // A refund failed, and a late report then took the payment out of PAID.
  predicate UnpaidAfterFailedRefund(o: Order) {
    && o.status == CONFIRMED && o.payment.Some?
    && o.payment.value.refundStatus == REFUND_FAILED && o.payment.value.paymentStatus != PAID
  }

  /**
   * The page offers to take a payment exactly when the service lets a card payment
   * start, and cash besides when none is in progress, except after a refund
   * of a payment that a late report took out of PAID.
   */
  lemma PaymentOfferedIffAccepted(o: Order)
    requires Consistent(o)
    ensures (CanProcessPayment(o) <==> Accepts(o, StartCard)) <==> !UnpaidAfterFailedRefund(o)
    ensures (CanProcessPayment(o) && o.payment.value.paymentStatus != AWAITING <==> Accepts(o, MarkCash)) <==>
            !(&& o.status == CONFIRMED
              && (o.payment.value.refundStatus == REFUND_FAILED || o.payment.value.refundStatus == REFUNDED)
              && (o.payment.value.paymentStatus == UNPAID || o.payment.value.paymentStatus == FAILED))
  {
    assert Backfilled(o) == o;
  }

  lemma LateReport(o: Order, late: Event)
    requires o == SeedHistories.AfterRefund(CONFIRMED, REFUND_FAILED) && late == SyncIntent(1, IntentRequiresMethod)
    ensures UnpaidAfterFailedRefund(Step(o, late))
  {
    assert o.payment.value.attempts[0].id == 1;
  }

  /** Some run leads to such an order. */
  lemma CanDisagreeOnPayment()
    ensures exists events :: UnpaidAfterFailedRefund(Run(NEW_ORDER, events))
  {
    SeedHistories.CardRefund(CONFIRMED, REFUND_FAILED);
    var o := SeedHistories.AfterRefund(CONFIRMED, REFUND_FAILED);
    var before :| Reaches(before, o);
    var late := SyncIntent(1, IntentRequiresMethod);
    LateReport(o, late);
    assert (before + [late])[..|before|] == before;
    assert UnpaidAfterFailedRefund(Run(NEW_ORDER, before + [late]));
  }

  /** Over calm runs page and service agree on every transition, and on when a payment may be started or marked cash. */
  lemma PageMirrorsService(events: seq<Event>, to: OrderStatus, answer: Intent)
    requires Calm(NEW_ORDER, events)
    ensures var o := Run(NEW_ORDER, events);
            && (to in GetAvailableTransitions(o) <==> Accepts(o, Operation(to, answer)))
            && (CanProcessPayment(o) <==> Accepts(o, StartCard))
            && (Accepts(o, MarkCash) <==> CanProcessPayment(o) && o.payment.value.paymentStatus != AWAITING)
  {
    RunsAreConsistent(events);
    CalmRunsSettle(events);
    SettledPageMirrors(Run(NEW_ORDER, events), to, answer);
  }

  lemma SettledPageMirrors(o: Order, to: OrderStatus, answer: Intent)
    requires Consistent(o) && Settled(o)
    ensures to in GetAvailableTransitions(o) <==> Accepts(o, Operation(to, answer))
    ensures CanProcessPayment(o) <==> Accepts(o, StartCard)
    ensures Accepts(o, MarkCash) <==> CanProcessPayment(o) && o.payment.value.paymentStatus != AWAITING
  {
    OfferedIffAccepted(o, to, answer);
    PaymentOfferedIffAccepted(o);
  }

  lemma RefundOffered(o: Order)
    requires Consistent(o) && Settled(o)
    ensures Accepts(o, RequestRefund) <==> CanRefundPayment(o) && o.status != CANCELLED
  {
    assert Backfilled(o) == o;
    if o.payment.Some? {
      var p := o.payment.value;
      if p.paymentStatus == PAID {
        assert p.via.value == CARD || p.via.value == CASH;
      }
    }
  }

  /** The page offers the refunds the service accepts, and those of cancelled orders, which it refuses. */
  lemma RefundOfferedIffAccepted(events: seq<Event>)
    requires Calm(NEW_ORDER, events)
    ensures var o := Run(NEW_ORDER, events);
            Accepts(o, RequestRefund) <==> CanRefundPayment(o) && o.status != CANCELLED
  {
    RunsAreConsistent(events);
    CalmRunsSettle(events);
    RefundOffered(Run(NEW_ORDER, events));
  }
}

/**
 * The seed's order and payment histories (backend/prisma/seed.demo.ts:1154-1824):
 * one bundle per order, drawn scenario by scenario, with its timestamps.
 * Times are integer milliseconds, ids are fresh numbers.
 */
module PaymentBundles {
  import opened Arithmetic
  import opened Wrappers
  import opened Lcg
  import opened OrderTypes

  const MINUTE: int := 60 * 1000

  datatype PaymentRow = PaymentRow(
    id: nat, organizationId: nat, orderId: nat, via: Option<Method>, paymentStatus: PaymentStatus,
    refundStatus: RefundStatus, amountCents: int, stripeRefundId: Option<nat>, paidAt: Option<int>,
    refundRequestedAt: Option<int>, refundedAt: Option<int>, refundFailedAt: Option<int>,
    refundReason: Option<string>, lastPaymentFailure: Option<string>, lastRefundFailure: Option<string>,
    createdAt: int, updatedAt: int)

  datatype AttemptRow = AttemptRow(
    id: nat, paymentId: nat, intentId: nat, status: AttemptStatus, amountCents: int, lastFailure: Option<string>,
    createdAt: int, updatedAt: int)

  datatype Bundle = Bundle(
    orderStatus: OrderStatus, orderUpdatedAt: int, placedAt: Option<int>, cancelledAt: Option<int>,
    payment: Option<PaymentRow>, attempts: seq<AttemptRow>)

  datatype Args = Args(orderId: nat, organizationId: nat, totalCents: int, createdAt: int)

  datatype Scenario =
    | Untouched
    | Unpaid | PendingCard | FailedCard | PaidCard | PaidCash
    | FulfilledCard | FulfilledCash | FulfilledRefunded | FulfilledRefundPending | FulfilledRefundFailed
    | PreConfirmation | UnpaidAfterConfirmation | RefundedAfterPayment

  // The scenarios of an order status, with their weights.
  function Scenarios(status: OrderStatus): (items: seq<Scenario>)
    ensures |items| == |Weights(status)| > 0
  {
    match status
    case PENDING => [Untouched]
    case CONFIRMED => [Unpaid, PendingCard, FailedCard, PaidCard, PaidCash]
    case FULFILLED => [FulfilledCard, FulfilledCash, FulfilledRefunded, FulfilledRefundPending, FulfilledRefundFailed]
    case CANCELLED => [PreConfirmation, UnpaidAfterConfirmation, RefundedAfterPayment]
  }

  function Weights(status: OrderStatus): seq<nat> {
    match status
    case PENDING => [100]
    case CONFIRMED => [35, 15, 15, 20, 15]
    case FULFILLED => [55, 20, 10, 7, 8]
    case CANCELLED => [35, 40, 25]
  }

  predicate ScenarioOf(status: OrderStatus, s: Scenario) {
    match status
    case PENDING => s.Untouched?
    case CONFIRMED => s.Unpaid? || s.PendingCard? || s.FailedCard? || s.PaidCard? || s.PaidCash?
    case FULFILLED =>
      || s.FulfilledCard? || s.FulfilledCash? || s.FulfilledRefunded?
      || s.FulfilledRefundPending? || s.FulfilledRefundFailed?
    case CANCELLED => s.PreConfirmation? || s.UnpaidAfterConfirmation? || s.RefundedAfterPayment?
  }

  const PAYMENT_FAILURES: seq<string> :=
    ["Card was declined by the issuer", "Authentication expired before payment completed",
     "Payment attempt was cancelled before completion"]
  const REFUND_FAILURES: seq<string> :=
    ["Stripe could not process the refund request", "Refund is temporarily unavailable for this payment",
     "Issuer rejected the refund request"]
  const RETURN_REASONS: seq<string> :=
    ["Customer returned the order", "Manager approved a full refund", "Inventory issue required reversal"]
  const CANCEL_REASONS: seq<string> :=
    ["Customer cancelled after payment", "Order refunded before fulfillment",
     "Manager approved pre-fulfillment refund"]

  // What a scenario says about the order and its payment.
  ghost predicate Shape(b: Bundle, s: Scenario) {
    match s
    case Untouched => b.orderStatus == PENDING && b.payment.None?
    case PreConfirmation => b.orderStatus == CANCELLED && b.payment.None?
    case Unpaid => b.orderStatus == CONFIRMED && Paying(b, UNPAID, NO_REFUND, {None})
    case PendingCard => b.orderStatus == CONFIRMED && Paying(b, AWAITING, NO_REFUND, {Some(CARD)})
    case FailedCard => b.orderStatus == CONFIRMED && Paying(b, FAILED, NO_REFUND, {Some(CARD)})
    case PaidCard => b.orderStatus == CONFIRMED && Paying(b, PAID, NO_REFUND, {Some(CARD)})
    case PaidCash => b.orderStatus == CONFIRMED && Paying(b, PAID, NO_REFUND, {Some(CASH)})
    case FulfilledCard => b.orderStatus == FULFILLED && Paying(b, PAID, NO_REFUND, {Some(CARD)})
    case FulfilledCash => b.orderStatus == FULFILLED && Paying(b, PAID, NO_REFUND, {Some(CASH)})
    case FulfilledRefunded => b.orderStatus == FULFILLED && Paying(b, PAID, REFUNDED, {Some(CARD), Some(CASH)})
    case FulfilledRefundPending => b.orderStatus == FULFILLED && Paying(b, PAID, IN_PROGRESS, {Some(CARD)})
    case FulfilledRefundFailed => b.orderStatus == FULFILLED && Paying(b, PAID, REFUND_FAILED, {Some(CARD)})
    case UnpaidAfterConfirmation =>
      b.orderStatus == CANCELLED &&
      (Paying(b, UNPAID, NO_REFUND, {None}) || Paying(b, FAILED, NO_REFUND, {Some(CARD)}))
    case RefundedAfterPayment => b.orderStatus == CANCELLED && Paying(b, PAID, REFUNDED, {Some(CARD), Some(CASH)})
  }

  ghost predicate Paying(b: Bundle, paid: PaymentStatus, refund: RefundStatus, methods: set<Option<Method>>) {
    && b.payment.Some?
    && b.payment.value.paymentStatus == paid && b.payment.value.refundStatus == refund
    && b.payment.value.via in methods
  }

  // The payment belongs to the order, the attempts to the payment.
  ghost predicate Linked(b: Bundle, a: Args) {
    && (b.payment.None? ==> b.attempts == [])
    && (b.payment.Some? ==>
          var p := b.payment.value;
          && p.orderId == a.orderId && p.organizationId == a.organizationId && p.amountCents == a.totalCents
          && forall i :: 0 <= i < |b.attempts| ==>
               b.attempts[i].paymentId == p.id && b.attempts[i].amountCents == a.totalCents)
  }

  // Every optional field is present exactly when the statuses call for it.
  ghost predicate Consistent(b: Bundle) {
    && (b.payment.Some? <==> b.placedAt.Some?)
    && (b.cancelledAt.Some? <==> b.orderStatus == CANCELLED)
    && (b.payment.Some? ==>
          var p := b.payment.value;
          && (p.via == Some(CARD) <==> |b.attempts| == 1) && |b.attempts| <= 1
          && (p.via == None <==> p.paymentStatus == UNPAID)
          && (b.attempts != [] ==>
                && AttemptFits(p.paymentStatus, b.attempts[0].status)
                && b.attempts[0].lastFailure == p.lastPaymentFailure)
          && (p.paidAt.Some? <==> p.paymentStatus == PAID)
          && (p.lastPaymentFailure.Some? <==> p.paymentStatus == FAILED)
          && (p.refundStatus != NO_REFUND ==> p.paymentStatus == PAID)
          && (p.refundRequestedAt.Some? <==> p.refundStatus != NO_REFUND)
          && (p.refundReason.Some? <==> p.refundStatus != NO_REFUND)
          && (p.refundedAt.Some? <==> p.refundStatus == REFUNDED)
          && (p.refundFailedAt.Some? <==> p.refundStatus == REFUND_FAILED)
          && (p.lastRefundFailure.Some? <==> p.refundStatus == REFUND_FAILED)
          && (p.stripeRefundId.Some? <==> p.via == Some(CARD) && p.refundStatus in {IN_PROGRESS, REFUNDED}))
  }

  predicate AttemptFits(p: PaymentStatus, a: AttemptStatus) {
    match p
    case UNPAID => false
    case AWAITING => a == STARTED || a == REQUIRES_ACTION
    case FAILED => a == ATTEMPT_FAILED || a == CANCELED
    case PAID => a == SUCCEEDED
  }

  // t is present and later than s, where both are.
  predicate After(s: int, t: Option<int>) {
    t.Some? ==> s < t.value
  }

  // Events happen in order: created, placed, attempt, paid, fulfilled, refund
  // requested, refunded or failed; a cancellation is later than all of them.
  ghost predicate Ordered(b: Bundle, createdAt: int) {
    && createdAt <= b.orderUpdatedAt
    && After(createdAt, b.placedAt)
    && After(createdAt, b.cancelledAt)
    && (b.orderStatus == CONFIRMED ==> Some(b.orderUpdatedAt) == b.placedAt)
    && (b.orderStatus == CANCELLED ==> Some(b.orderUpdatedAt) == b.cancelledAt)
    && (b.payment.Some? && b.placedAt.Some? ==>
          var p, placed := b.payment.value, b.placedAt.value;
          var fulfilled := if b.orderStatus == FULFILLED then b.orderUpdatedAt else placed;
          && p.createdAt == placed && After(placed, b.cancelledAt)
          && (p.paidAt.Some? ==>
                && placed < p.paidAt.value
                && After(p.paidAt.value, if b.orderStatus == FULFILLED then Some(fulfilled) else None)
                && After(p.paidAt.value, p.refundRequestedAt) && After(p.paidAt.value, b.cancelledAt))
          && After(fulfilled, p.refundRequestedAt)
          && (p.refundRequestedAt.Some? ==>
                && After(p.refundRequestedAt.value, p.refundedAt)
                && After(p.refundRequestedAt.value, p.refundFailedAt)
                && After(p.refundRequestedAt.value, b.cancelledAt))
          && (p.refundedAt.Some? ==> After(p.refundedAt.value, b.cancelledAt))
          && (b.attempts != [] ==>
                var t := b.attempts[0];
                && placed < t.createdAt && After(t.createdAt, p.paidAt) && After(t.createdAt, b.cancelledAt)
                && t.updatedAt == (if p.paidAt.Some? then p.paidAt.value else t.createdAt))
          && p.updatedAt == LastEvent(p, b.attempts, placed))
  }

  // The last thing that happened to the payment itself.
  function LastEvent(p: PaymentRow, attempts: seq<AttemptRow>, placed: int): int {
    if p.refundedAt.Some? then p.refundedAt.value
    else if p.refundFailedAt.Some? then p.refundFailedAt.value
    else if p.refundRequestedAt.Some? then p.refundRequestedAt.value
    else if p.paidAt.Some? then p.paidAt.value
    else if attempts != [] then attempts[0].createdAt
    else placed
  }

  ghost predicate WellFormed(b: Bundle, a: Args) {
    Linked(b, a) && Consistent(b) && Ordered(b, a.createdAt)
  }

  // How a payment of either method was settled.
  ghost predicate SettledWith(
    paymentId: nat, amountCents: int, placedAt: int, via: Method, paidAt: int, attempts: seq<AttemptRow>)
  {
    && placedAt < paidAt && |attempts| == (if via == CARD then 1 else 0)
    && (via == CARD ==>
          var t := attempts[0];
          && t.paymentId == paymentId && t.amountCents == amountCents && t.status == SUCCEEDED
          && t.lastFailure == None && placedAt < t.createdAt < paidAt && t.updatedAt == paidAt)
  }

  // A settled payment, before any refund.
  function PaidRow(
    a: Args, paymentId: nat, via: Method, placedAt: int, paidAt: int, reason: Option<string>): PaymentRow
  {
    PaymentRow(paymentId, a.organizationId, a.orderId, Some(via), PAID, NO_REFUND, a.totalCents,
               None, Some(paidAt), None, None, None, reason, None, None, placedAt, paidAt)
  }

  lemma FulfilledIsWellFormed(
    a: Args, s: Scenario, via: Method, placedAt: int, paidAt: int, fulfilledAt: int, row: PaymentRow,
    row': PaymentRow, attempts: seq<AttemptRow>)
    requires a.createdAt < placedAt && paidAt < fulfilledAt
    requires row == PaidRow(a, row.id, via, placedAt, paidAt, row.refundReason)
    requires SettledWith(row.id, a.totalCents, placedAt, via, paidAt, attempts)
    requires ScenarioOf(FULFILLED, s) && (via == CASH ==> s == FulfilledCash || s == FulfilledRefunded)
    requires s == FulfilledCash ==> via == CASH
    requires row.refundReason.None? <==> s == FulfilledCard || s == FulfilledCash
    requires RefundFields(row, row', s, fulfilledAt)
    ensures var b := Bundle(FULFILLED, fulfilledAt, Some(placedAt), None, Some(row'), attempts);
            WellFormed(b, a) && Shape(b, s)
  {
  }

  lemma RefundedCancellationIsWellFormed(
    a: Args, via: Method, placedAt: int, paidAt: int, requestedAt: int, refundedAt: int, cancelledAt: int,
    paid: PaymentRow, refundId: Option<nat>, attempts: seq<AttemptRow>)
    requires a.createdAt < placedAt && paidAt < requestedAt < refundedAt < cancelledAt
    requires paid == PaidRow(a, paid.id, via, placedAt, paidAt, paid.refundReason) && paid.refundReason.Some?
    requires SettledWith(paid.id, a.totalCents, placedAt, via, paidAt, attempts)
    requires refundId.Some? <==> via == CARD
    ensures var row := paid.(refundStatus := REFUNDED, stripeRefundId := refundId, updatedAt := refundedAt,
                             refundRequestedAt := Some(requestedAt), refundedAt := Some(refundedAt));
            var b := Bundle(CANCELLED, cancelledAt, Some(placedAt), Some(cancelledAt), Some(row), attempts);
            WellFormed(b, a) && Shape(b, RefundedAfterPayment)
  {
  }

  // A placed payment before any collection.
  function PlacedRow(a: Args, paymentId: nat, placedAt: int): PaymentRow {
    PaymentRow(paymentId, a.organizationId, a.orderId, None, UNPAID, NO_REFUND, a.totalCents,
               None, None, None, None, None, None, None, None, placedAt, placedAt)
  }

  // The payment of a confirmed order in each scenario.
  ghost predicate ConfirmedRow(a: Args, s: Scenario, placedAt: int, row: PaymentRow, attempts: seq<AttemptRow>) {
    match s
    case Unpaid => row == PlacedRow(a, row.id, placedAt) && attempts == []
    case PendingCard =>
      && |attempts| == 1
      && var t := attempts[0];
         && placedAt < t.createdAt == t.updatedAt && t.paymentId == row.id && t.amountCents == a.totalCents
         && (t.status == STARTED || t.status == REQUIRES_ACTION) && t.lastFailure == None
         && row == PlacedRow(a, row.id, placedAt).(via := Some(CARD), paymentStatus := AWAITING,
                                                   updatedAt := t.createdAt)
    case FailedCard =>
      && |attempts| == 1
      && var t := attempts[0];
         && placedAt < t.createdAt == t.updatedAt && t.paymentId == row.id && t.amountCents == a.totalCents
         && t.status == ATTEMPT_FAILED && t.lastFailure.Some?
         && row == PlacedRow(a, row.id, placedAt).(via := Some(CARD), paymentStatus := FAILED,
                                                   updatedAt := t.createdAt, lastPaymentFailure := t.lastFailure)
    case PaidCard => PaidConfirmed(a, CARD, placedAt, row, attempts)
    case PaidCash => PaidConfirmed(a, CASH, placedAt, row, attempts)
    case _ => false
  }

  ghost predicate PaidConfirmed(a: Args, via: Method, placedAt: int, row: PaymentRow, attempts: seq<AttemptRow>) {
    && row.paidAt.Some? && row == PaidRow(a, row.id, via, placedAt, row.paidAt.value, None)
    && SettledWith(row.id, a.totalCents, placedAt, via, row.paidAt.value, attempts)
  }

  lemma ConfirmedIsWellFormed(a: Args, s: Scenario, placedAt: int, row: PaymentRow, attempts: seq<AttemptRow>)
    requires a.createdAt < placedAt && ConfirmedRow(a, s, placedAt, row, attempts)
    ensures var b := Bundle(CONFIRMED, placedAt, Some(placedAt), None, Some(row), attempts);
            WellFormed(b, a) && Shape(b, s)
  {
  }

  lemma UnpaidCancellationIsWellFormed(
    a: Args, placedAt: int, cancelledAt: int, row: PaymentRow, attempts: seq<AttemptRow>, failure: string)
    requires a.createdAt < placedAt < cancelledAt
    requires if attempts == [] then row == PlacedRow(a, row.id, placedAt)
             else
               var t := attempts[0];
               && |attempts| == 1 && placedAt < t.createdAt < cancelledAt && t.updatedAt == t.createdAt
               && t.paymentId == row.id && t.amountCents == a.totalCents && t.status == CANCELED
               && t.lastFailure == Some(failure)
               && row == PlacedRow(a, row.id, placedAt).(via := Some(CARD), paymentStatus := FAILED,
                                                         updatedAt := t.createdAt, lastPaymentFailure := Some(failure))
    ensures var b := Bundle(CANCELLED, cancelledAt, Some(placedAt), Some(cancelledAt), Some(row), attempts);
            WellFormed(b, a) && Shape(b, UnpaidAfterConfirmation)
  {
  }

  // The ids handed out while building it, from lo up to hi.
  ghost predicate FreshIds(b: Bundle, lo: nat, hi: nat) {
    && lo <= hi
    && (b.payment.Some? ==> lo <= b.payment.value.id < hi)
    && forall i :: 0 <= i < |b.attempts| ==> lo <= b.attempts[i].id < hi
  }

  // A refund requested after the order was fulfilled changes the refund's fields and nothing else.
  ghost predicate RefundFields(row: PaymentRow, row': PaymentRow, s: Scenario, fulfilledAt: int) {
    var asked := row'.refundRequestedAt;
    match s
    case FulfilledRefunded =>
      && asked.Some? && row'.refundedAt.Some? && fulfilledAt < asked.value < row'.refundedAt.value
      && (row'.stripeRefundId.Some? <==> row.via == Some(CARD))
      && row' == row.(refundStatus := REFUNDED, stripeRefundId := row'.stripeRefundId, refundRequestedAt := asked,
                      refundedAt := row'.refundedAt, updatedAt := row'.refundedAt.value)
    case FulfilledRefundPending =>
      && asked.Some? && fulfilledAt < asked.value && row'.stripeRefundId.Some?
      && row' == row.(refundStatus := IN_PROGRESS, stripeRefundId := row'.stripeRefundId,
                      refundRequestedAt := asked, updatedAt := asked.value)
    case FulfilledRefundFailed =>
      && asked.Some? && row'.refundFailedAt.Some? && fulfilledAt < asked.value < row'.refundFailedAt.value
      && row'.lastRefundFailure.Some?
      && row' == row.(refundStatus := REFUND_FAILED, refundRequestedAt := asked,
                      refundFailedAt := row'.refundFailedAt, lastRefundFailure := row'.lastRefundFailure,
                      updatedAt := row'.refundFailedAt.value)
    case _ => row' == row
  }

  // ---- What the draws decide ---------------------------------------------------------------
  //
  // A generator on word w draws NextWord(w) next.

  // addMinutes(date, min, max) on the draw of word u.
  ghost function At(date: int, min: nat, max: nat, u: int): int
    requires min <= max
  {
    date + Choice(min, max, u) * 60_000
  }

  lemma MinutesBetween(date: int, min: int, max: int, k: int)
    requires min <= k <= max
    ensures date + min * MINUTE <= date + k * MINUTE <= date + max * MINUTE
  {
  }

  // rngPick on the draw of word u.
  ghost predicate PicksText(texts: seq<string>, u: int, text: Option<string>) {
    0 <= Bucket(u, |texts|) < |texts| && text == Some(texts[Bucket(u, |texts|)])
  }

  // The order status of a scenario, and its place among the status's scenarios.
  ghost function PlaceOf(s: Scenario): (OrderStatus, int) {
    match s
    case Untouched => (PENDING, 0)
    case Unpaid => (CONFIRMED, 0)
    case PendingCard => (CONFIRMED, 1)
    case FailedCard => (CONFIRMED, 2)
    case PaidCard => (CONFIRMED, 3)
    case PaidCash => (CONFIRMED, 4)
    case FulfilledCard => (FULFILLED, 0)
    case FulfilledCash => (FULFILLED, 1)
    case FulfilledRefunded => (FULFILLED, 2)
    case FulfilledRefundPending => (FULFILLED, 3)
    case FulfilledRefundFailed => (FULFILLED, 4)
    case PreConfirmation => (CANCELLED, 0)
    case UnpaidAfterConfirmation => (CANCELLED, 1)
    case RefundedAfterPayment => (CANCELLED, 2)
  }

  // The scenario that the draw of word u selects by weight.
  ghost predicate ScenarioDrawn(status: OrderStatus, u: int, s: Scenario) {
    && PlaceOf(s).0 == status
    && (status == CONFIRMED ==> Selects(u, [35, 15, 15, 20, 15], PlaceOf(s).1))
    && (status == FULFILLED ==> Selects(u, [55, 20, 10, 7, 8], PlaceOf(s).1))
    && (status == CANCELLED ==> Selects(u, [35, 40, 25], PlaceOf(s).1))
  }

  lemma SelectionIsDrawn(status: OrderStatus, u: int, s: Scenario, i: int)
    requires status != PENDING && 0 <= i < |Scenarios(status)| && s == Scenarios(status)[i]
    requires Selects(u, Weights(status), i)
    ensures ScenarioDrawn(status, u, s) && ScenarioOf(status, s)
  {
    assert PlaceOf(s) == (status, i);
  }

  // When a payment of a placed order was collected.
  ghost predicate CollectedSo(placedAt: int, via: Method, paidAt: int, attempts: seq<AttemptRow>, w: int) {
    if via == CARD then
      && |attempts| == 1 && attempts[0].createdAt == At(placedAt, 1, 45, NextWord(w))
      && paidAt == At(attempts[0].createdAt, 1, 30, NextWord(NextWord(w)))
    else paidAt == At(placedAt, 1, 90, NextWord(w))
  }

  ghost function AfterCollection(via: Method, w: int): int {
    if via == CARD then NextWord(NextWord(w)) else NextWord(w)
  }

  // The payment of a confirmed order, collected or not.
  ghost predicate ConfirmedSo(placedAt: int, s: Scenario, p: PaymentRow, attempts: seq<AttemptRow>, w: int) {
    var u := NextWord(w);
    match s
    case PendingCard =>
      && |attempts| == 1 && attempts[0].createdAt == At(placedAt, 1, 60, u)
      && (attempts[0].status == REQUIRES_ACTION <==> Chance(NextWord(u), 0.25))
    case FailedCard =>
      && |attempts| == 1 && attempts[0].createdAt == At(placedAt, 1, 45, u)
      && PicksText(PAYMENT_FAILURES, NextWord(u), p.lastPaymentFailure)
    case PaidCard => p.paidAt.Some? && CollectedSo(placedAt, CARD, p.paidAt.value, attempts, w)
    case PaidCash => p.paidAt.Some? && CollectedSo(placedAt, CASH, p.paidAt.value, attempts, w)
    case _ => true
  }

  ghost function AfterConfirmed(s: Scenario, w: int): int {
    match s
    case PendingCard => NextWord(NextWord(w))
    case FailedCard => NextWord(NextWord(w))
    case PaidCard => AfterCollection(CARD, w)
    case PaidCash => AfterCollection(CASH, w)
    case _ => w
  }

  // The reason of a refund, and whether a fulfilled order was paid in cash.
  ghost predicate ReasonedSo(s: Scenario, reason: Option<string>, w: int) {
    if s == FulfilledCard || s == FulfilledCash then reason == None
    else PicksText(RETURN_REASONS, NextWord(w), reason)
  }

  ghost function AfterReason(s: Scenario, w: int): int {
    if s == FulfilledCard || s == FulfilledCash then w else NextWord(w)
  }

  ghost predicate MethodSo(s: Scenario, via: Method, w: int) {
    via == CASH <==> if s == FulfilledRefunded then Chance(NextWord(w), 0.3) else s == FulfilledCash
  }

  ghost function AfterMethod(s: Scenario, w: int): int {
    if s == FulfilledRefunded then NextWord(w) else w
  }

  // The refund of a fulfilled order.
  ghost predicate RefundedSo(fulfilledAt: int, s: Scenario, p: PaymentRow, w: int) {
    var u := NextWord(w);
    match s
    case FulfilledRefunded =>
      && p.refundRequestedAt == Some(At(fulfilledAt, 60, 96 * 60, u))
      && p.refundedAt == Some(At(p.refundRequestedAt.value, 5, 180, NextWord(u)))
    case FulfilledRefundPending => p.refundRequestedAt == Some(At(fulfilledAt, 60, 72 * 60, u))
    case FulfilledRefundFailed =>
      && p.refundRequestedAt == Some(At(fulfilledAt, 60, 72 * 60, u))
      && p.refundFailedAt == Some(At(p.refundRequestedAt.value, 5, 180, NextWord(u)))
      && PicksText(REFUND_FAILURES, NextWord(NextWord(u)), p.lastRefundFailure)
    case _ => true
  }

  ghost function AfterRefund(s: Scenario, w: int): int {
    match s
    case FulfilledRefunded => NextWord(NextWord(w))
    case FulfilledRefundPending => NextWord(w)
    case FulfilledRefundFailed => NextWord(NextWord(NextWord(w)))
    case _ => w
  }

  // Collection, fulfilment and refund, from the word after the method is known.
  ghost predicate FulfilledSo(b: Bundle, p: PaymentRow, placedAt: int, via: Method, s: Scenario, w: int) {
    var u := AfterCollection(via, w);
    && p.paidAt.Some? && CollectedSo(placedAt, via, p.paidAt.value, b.attempts, w)
    && b.orderUpdatedAt == At(p.paidAt.value, 10, 48 * 60, NextWord(u))
    && RefundedSo(b.orderUpdatedAt, s, p, NextWord(u))
  }

  ghost function AfterFulfilment(via: Method, s: Scenario, w: int): int {
    AfterRefund(s, NextWord(AfterCollection(via, w)))
  }

  // A cancellation before collection, with an attempt by a chance of 0.3.
  ghost predicate AbandonedSo(b: Bundle, placedAt: int, w: int) {
    var u := NextWord(w);
    var v := NextWord(u);
    && b.orderUpdatedAt == At(placedAt, 60, 48 * 60, u)
    && (b.attempts != [] <==> Chance(v, 0.3))
    && (b.attempts != [] ==>
          && b.attempts[0].createdAt == At(placedAt, 1, 45, NextWord(v))
          && b.attempts[0].lastFailure == Some("Payment attempt was cancelled before completion"))
  }

  ghost function AfterAbandoned(w: int): int {
    var v := NextWord(NextWord(w));
    if Chance(v, 0.3) then NextWord(v) else v
  }

  // Collection, refund and cancellation, from the word after the method is known.
  ghost predicate RefundedCancellationSo(b: Bundle, p: PaymentRow, placedAt: int, via: Method, w: int) {
    var x := NextWord(AfterCollection(via, w));
    var y := NextWord(x);
    var z := NextWord(y);
    && p.via == Some(via) && p.paidAt.Some? && p.refundRequestedAt.Some? && p.refundedAt.Some?
    && CollectedSo(placedAt, via, p.paidAt.value, b.attempts, w)
    && p.refundRequestedAt.value == At(p.paidAt.value, 60, 48 * 60, x)
    && p.refundedAt.value == At(p.refundRequestedAt.value, 5, 180, y)
    && b.orderUpdatedAt == At(p.refundedAt.value, 1, 30, z)
    && PicksText(CANCEL_REASONS, NextWord(z), p.refundReason)
  }

  lemma RefundedCancellationIsDrawn(
    b: Bundle, p: PaymentRow, placedAt: int, via: Method, paidAt: int, requestedAt: int, refundedAt: int, w: int)
    requires p.via == Some(via) && p.paidAt == Some(paidAt)
    requires p.refundRequestedAt == Some(requestedAt) && p.refundedAt == Some(refundedAt)
    requires CollectedSo(placedAt, via, paidAt, b.attempts, w)
    requires var x := NextWord(AfterCollection(via, w));
             var y := NextWord(x);
             var z := NextWord(y);
             && requestedAt == At(paidAt, 60, 48 * 60, x) && refundedAt == At(requestedAt, 5, 180, y)
             && b.orderUpdatedAt == At(refundedAt, 1, 30, z)
             && PicksText(CANCEL_REASONS, NextWord(z), p.refundReason)
    ensures RefundedCancellationSo(b, p, placedAt, via, w)
  {
  }

  ghost function AfterRefundedCancellation(via: Method, w: int): int {
    NextWord(NextWord(NextWord(NextWord(AfterCollection(via, w)))))
  }

  // A cancelled order is paid in cash by a chance of 0.35, on the draw of word u.
  ghost function CancelledVia(u: int): Method {
    if Chance(u, 0.35) then CASH else CARD
  }

  /**
   * The history that a generator on word w draws for an order: the scenario,
   * every choice, time and text by its own draw.
   */
  ghost predicate DrawnSo(b: Bundle, createdAt: int, status: OrderStatus, s: Scenario, w: int) {
    var u := NextWord(w);
    var v := NextWord(u);
    match status
    case PENDING => s == Untouched && b.orderUpdatedAt == At(createdAt, 0, 240, u)
    case CONFIRMED =>
      && b.placedAt == Some(At(createdAt, 5, 1440, u)) && b.payment.Some?
      && ScenarioDrawn(CONFIRMED, v, s)
      && ConfirmedSo(b.placedAt.value, s, b.payment.value, b.attempts, v)
    case FULFILLED =>
      && b.placedAt == Some(At(createdAt, 5, 1440, u)) && b.payment.Some? && b.payment.value.via.Some?
      && ScenarioDrawn(FULFILLED, v, s)
      && FulfilledFrom(b, b.payment.value, b.payment.value.via.value, b.placedAt.value, s, v)
    case CANCELLED =>
      && ScenarioDrawn(CANCELLED, u, s)
      && (if s == PreConfirmation then b.orderUpdatedAt == At(createdAt, 60, 72 * 60, v)
          else
            && b.placedAt == Some(At(createdAt, 5, 1440, v)) && b.payment.Some?
            && var (p, placedAt, x) := (b.payment.value, b.placedAt.value, NextWord(v));
               if s == UnpaidAfterConfirmation then AbandonedSo(b, placedAt, v)
               else RefundedCancellationSo(b, p, placedAt, CancelledVia(x), x))
  }

  ghost predicate FulfilledFrom(b: Bundle, p: PaymentRow, via: Method, placedAt: int, s: Scenario, w: int) {
    && ReasonedSo(s, p.refundReason, w) && MethodSo(s, via, AfterReason(s, w))
    && FulfilledSo(b, p, placedAt, via, s, AfterMethod(s, AfterReason(s, w)))
  }

  lemma FulfilledIsDrawn(b: Bundle, p: PaymentRow, placedAt: int, via: Method, s: Scenario, paid: PaymentRow, w: int)
    requires paid.paidAt.Some? && RefundFields(paid, p, s, b.orderUpdatedAt)
    requires var u := AfterCollection(via, w);
             && CollectedSo(placedAt, via, paid.paidAt.value, b.attempts, w)
             && b.orderUpdatedAt == At(paid.paidAt.value, 10, 48 * 60, NextWord(u))
             && RefundedSo(b.orderUpdatedAt, s, p, NextWord(u))
    ensures FulfilledSo(b, p, placedAt, via, s, w)
  {
  }

  lemma IdsAreFresh(b: Bundle, lo: nat, hi: nat)
    requires lo < hi && (b.payment.Some? ==> b.payment.value.id == lo) && |b.attempts| <= 1
    requires b.attempts != [] ==> lo <= b.attempts[0].id < hi
    ensures FreshIds(b, lo, hi)
  {
  }

  lemma FulfilledFromParts(
    b: Bundle, p: PaymentRow, via: Method, reason: Option<string>, placedAt: int, s: Scenario, w: int)
    requires ReasonedSo(s, reason, w) && MethodSo(s, via, AfterReason(s, w)) && p.refundReason == reason
    requires FulfilledSo(b, p, placedAt, via, s, AfterMethod(s, AfterReason(s, w)))
    ensures FulfilledFrom(b, p, via, placedAt, s, w)
  {
  }

  ghost function AfterFulfilledFrom(via: Method, s: Scenario, w: int): int {
    AfterFulfilment(via, s, AfterMethod(s, AfterReason(s, w)))
  }

  function Via(b: Bundle): Option<Method> {
    if b.payment.Some? then b.payment.value.via else None
  }

  // The word the generator then stands on.
  ghost function AfterBundle(status: OrderStatus, s: Scenario, via: Option<Method>, w: int): int {
    var v := NextWord(NextWord(w));
    match status
    case PENDING => NextWord(w)
    case CONFIRMED => AfterConfirmed(s, v)
    case FULFILLED => AfterFulfilledFrom(if via.Some? then via.value else CARD, s, v)
    case CANCELLED =>
      if s == PreConfirmation then v
      else if s == UnpaidAfterConfirmation then AfterAbandoned(v)
      else AfterRefundedCancellation(CancelledVia(NextWord(v)), NextWord(v))
  }

  /**
   * The bundle that a generator on word w draws for an order, before it stands on w':
   * well formed, of the drawn scenario's shape, with ids of its own.
   */
  ghost predicate IsHistory(
    b: Bundle, a: Args, status: OrderStatus, s: Scenario, w: int, w': int, lo: nat, hi: nat)
  {
    && b.orderStatus == status && WellFormed(b, a) && Shape(b, s) && FreshIds(b, lo, hi)
    && DrawnSo(b, a.createdAt, status, s, w) && w' == AfterBundle(status, s, Via(b), w)
  }

  lemma CancellationIsHistory(b: Bundle, a: Args, s: Scenario, w: int, w': int, lo: nat, hi: nat)
    requires b.orderStatus == CANCELLED && WellFormed(b, a) && Shape(b, s) && FreshIds(b, lo, hi)
    requires ScenarioDrawn(CANCELLED, NextWord(w), s)
    requires var v := NextWord(NextWord(w));
             var x := NextWord(v);
             if s == PreConfirmation then b.orderUpdatedAt == At(a.createdAt, 60, 72 * 60, v) && w' == v
             else
               && b.placedAt == Some(At(a.createdAt, 5, 1440, v)) && b.payment.Some?
               && (if s == UnpaidAfterConfirmation
                   then AbandonedSo(b, b.placedAt.value, v) && w' == AfterAbandoned(v)
                   else
                     && RefundedCancellationSo(b, b.payment.value, b.placedAt.value, CancelledVia(x), x)
                     && w' == AfterRefundedCancellation(CancelledVia(x), x))
    ensures IsHistory(b, a, CANCELLED, s, w, w', lo, hi)
  {
  }

  /** Every choice that the scenario leaves open, by the word drawn for it. */
  lemma ChoicesByWord(b: Bundle, a: Args, status: OrderStatus, s: Scenario, w: int, w': int, lo: nat, hi: nat)
    requires IsHistory(b, a, status, s, w, w', lo, hi)
    ensures s == RefundedAfterPayment ==> (Via(b) == Some(CASH) <==> Chance(WordAfter(w, 3), 0.35))
    ensures s == UnpaidAfterConfirmation ==> (Via(b) == Some(CARD) <==> Chance(WordAfter(w, 4), 0.3))
    ensures s == FulfilledRefunded ==> (Via(b) == Some(CASH) <==> Chance(WordAfter(w, 4), 0.3))
    ensures s == PendingCard ==>
              b.attempts != [] && (b.attempts[0].status == REQUIRES_ACTION <==> Chance(WordAfter(w, 4), 0.25))
  {
    assert WordAfter(w, 1) == NextWord(WordAfter(w, 0));
    assert WordAfter(w, 2) == NextWord(WordAfter(w, 1));
    assert WordAfter(w, 3) == NextWord(WordAfter(w, 2));
    assert WordAfter(w, 4) == NextWord(WordAfter(w, 3));
  }

  class Seeder {
    const rng: Rng
    var nextId: nat

    constructor (rng: Rng)
      ensures this.rng == rng && nextId == 0
    {
      this.rng := rng;
      nextId := 0;
    }

    // randomUUID
    method FreshId() returns (id: nat)
      modifies this
      ensures id == old(nextId) && nextId == old(nextId) + 1
    {
      id := nextId;
      nextId := nextId + 1;
    }

    method AddMinutes(date: int, min: int, max: int) returns (t: int)
      requires rng.Valid() && 0 <= min <= max < 0x20_0000
      modifies rng
      ensures rng.Valid() && rng.Word() == NextWord(old(rng.Word()))
      ensures date + min * MINUTE <= t <= date + max * MINUTE
      ensures t == At(date, min, max, rng.Word())
    {
      var k := rng.RngInt(min, max);
      t := date + k * MINUTE;
      MinutesBetween(date, min, max, k);
    }

    method AddHours(date: int, min: int, max: int) returns (t: int)
      requires rng.Valid() && 0 <= min <= max < 0x2000
      modifies rng
      ensures rng.Valid() && rng.Word() == NextWord(old(rng.Word()))
      ensures date + min * 60 * MINUTE <= t <= date + max * 60 * MINUTE
      ensures t == At(date, min * 60, max * 60, rng.Word())
    {
      t := AddMinutes(date, min * 60, max * 60);
    }

    method CreateAttempt(
        paymentId: nat, amountCents: int, status: AttemptStatus, createdAt: int, updatedAt: int,
        lastFailure: Option<string>) returns (row: AttemptRow)
      modifies this
      ensures nextId == old(nextId) + 2
      ensures row == AttemptRow(old(nextId) + 1, paymentId, old(nextId), status, amountCents, lastFailure,
                                createdAt, updatedAt)
    {
      var intentId := FreshId();
      var id := FreshId();
      row := AttemptRow(id, paymentId, intentId, status, amountCents, lastFailure, createdAt, updatedAt);
    }

    method PickScenario(status: OrderStatus) returns (s: Scenario)
      requires rng.Valid() && status != PENDING
      modifies rng
      ensures rng.Valid() && rng.Word() == NextWord(old(rng.Word()))
      ensures ScenarioDrawn(status, rng.Word(), s) && ScenarioOf(status, s)
    {
      WeightTotal(status);
      ghost var index;
      s, index := rng.RngPickWeighted(Scenarios(status), Weights(status));
      SelectionIsDrawn(status, rng.Word(), s, index);
    }

    method BuildConfirmed(a: Args) returns (b: Bundle, ghost scenario: Scenario)
      requires rng.Valid()
      modifies this, rng
      ensures rng.Valid() && nextId >= old(nextId)
      ensures IsHistory(b, a, CONFIRMED, scenario, old(rng.Word()), rng.Word(), old(nextId), nextId)
    {
      var placedAt := AddMinutes(a.createdAt, 5, 24 * 60);
      var paymentId := FreshId();
      var s := PickScenario(CONFIRMED);
      scenario := s;
      var row, attempts := ConfirmedPayment(a, s, paymentId, placedAt);
      b := Bundle(CONFIRMED, placedAt, Some(placedAt), None, Some(row), attempts);
      ConfirmedIsWellFormed(a, s, placedAt, row, attempts);
      IdsAreFresh(b, paymentId, nextId);
    }

    method ConfirmedPayment(a: Args, s: Scenario, paymentId: nat, placedAt: int)
        returns (row: PaymentRow, attempts: seq<AttemptRow>)
      requires rng.Valid() && ScenarioOf(CONFIRMED, s)
      modifies this, rng
      ensures rng.Valid() && nextId >= old(nextId) && row.id == paymentId
      ensures ConfirmedRow(a, s, placedAt, row, attempts)
      ensures ConfirmedSo(placedAt, s, row, attempts, old(rng.Word()))
      ensures rng.Word() == AfterConfirmed(s, old(rng.Word()))
      ensures attempts != [] ==> old(nextId) <= attempts[0].id < nextId
    {
      row, attempts := PlacedRow(a, paymentId, placedAt), [];
      match s {
        case PendingCard =>
          var attemptAt := AddMinutes(placedAt, 1, 60);
          var action := rng.RngBool(0.25);
          var attempt := CreateAttempt(paymentId, a.totalCents, if action then REQUIRES_ACTION else STARTED,
                                       attemptAt, attemptAt, None);
          row := row.(via := Some(CARD), paymentStatus := AWAITING, updatedAt := attemptAt);
          attempts := [attempt];
        case FailedCard =>
          var attemptAt := AddMinutes(placedAt, 1, 45);
          var failure, _ := rng.RngPick(PAYMENT_FAILURES);
          row := row.(via := Some(CARD), paymentStatus := FAILED, updatedAt := attemptAt,
                      lastPaymentFailure := Some(failure));
          var attempt := CreateAttempt(paymentId, a.totalCents, ATTEMPT_FAILED, attemptAt, attemptAt, Some(failure));
          attempts := [attempt];
        case PaidCard =>
          var paidAt;
          paidAt, attempts := Collect(paymentId, a.totalCents, placedAt, CARD);
          row := PaidRow(a, paymentId, CARD, placedAt, paidAt, None);
        case PaidCash =>
          var paidAt;
          paidAt, attempts := Collect(paymentId, a.totalCents, placedAt, CASH);
          row := PaidRow(a, paymentId, CASH, placedAt, paidAt, None);
        case _ =>
      }
    }

    // A card attempt that succeeds, or cash: when the order is paid.
    method Collect(paymentId: nat, amountCents: int, placedAt: int, via: Method)
        returns (paidAt: int, attempts: seq<AttemptRow>)
      requires rng.Valid()
      modifies this, rng
      ensures rng.Valid() && nextId >= old(nextId)
      ensures SettledWith(paymentId, amountCents, placedAt, via, paidAt, attempts)
      ensures CollectedSo(placedAt, via, paidAt, attempts, old(rng.Word()))
      ensures rng.Word() == AfterCollection(via, old(rng.Word()))
      ensures attempts != [] ==> old(nextId) <= attempts[0].id < nextId
    {
      attempts := [];
      if via == CARD {
        var attemptAt := AddMinutes(placedAt, 1, 45);
        paidAt := AddMinutes(attemptAt, 1, 30);
        var attempt := CreateAttempt(paymentId, amountCents, SUCCEEDED, attemptAt, paidAt, None);
        attempts := [attempt];
      } else {
        paidAt := AddMinutes(placedAt, 1, 90);
      }
    }

    method ReturnReason(s: Scenario) returns (reason: Option<string>)
      requires rng.Valid()
      modifies rng
      ensures rng.Valid()
      ensures reason.None? <==> s == FulfilledCard || s == FulfilledCash
      ensures ReasonedSo(s, reason, old(rng.Word())) && rng.Word() == AfterReason(s, old(rng.Word()))
    {
      reason := None;
      if s != FulfilledCard && s != FulfilledCash {
        var text, _ := rng.RngPick(RETURN_REASONS);
        reason := Some(text);
      }
    }

    method FulfilledVia(s: Scenario) returns (via: Method)
      requires rng.Valid()
      modifies rng
      ensures rng.Valid()
      ensures (via == CASH ==> s == FulfilledCash || s == FulfilledRefunded) && (s == FulfilledCash ==> via == CASH)
      ensures MethodSo(s, via, old(rng.Word())) && rng.Word() == AfterMethod(s, old(rng.Word()))
    {
      via := if s == FulfilledCash then CASH else CARD;
      if s == FulfilledRefunded {
        var cash := rng.RngBool(0.3);
        via := if cash then CASH else CARD;
      }
    }

    method RefundAfterFulfilment(row: PaymentRow, s: Scenario, fulfilledAt: int) returns (row': PaymentRow)
      requires rng.Valid()
      modifies this, rng
      ensures rng.Valid() && nextId >= old(nextId)
      ensures RefundFields(row, row', s, fulfilledAt)
      ensures RefundedSo(fulfilledAt, s, row', old(rng.Word())) && rng.Word() == AfterRefund(s, old(rng.Word()))
    {
      row' := row;
      if s == FulfilledRefunded {
        var requestedAt := AddHours(fulfilledAt, 1, 96);
        var refundedAt := AddMinutes(requestedAt, 5, 180);
        row' := row.(refundStatus := REFUNDED, refundRequestedAt := Some(requestedAt),
                     refundedAt := Some(refundedAt), updatedAt := refundedAt, stripeRefundId := None);
        if row.via == Some(CARD) {
          var refundId := FreshId();
          row' := row'.(stripeRefundId := Some(refundId));
        }
      } else if s == FulfilledRefundPending {
        var requestedAt := AddHours(fulfilledAt, 1, 72);
        var refundId := FreshId();
        row' := row.(refundStatus := IN_PROGRESS, stripeRefundId := Some(refundId),
                     refundRequestedAt := Some(requestedAt), updatedAt := requestedAt);
      } else if s == FulfilledRefundFailed {
        var requestedAt := AddHours(fulfilledAt, 1, 72);
        var failedAt := AddMinutes(requestedAt, 5, 180);
        var failure, _ := rng.RngPick(REFUND_FAILURES);
        row' := row.(refundStatus := REFUND_FAILED, refundRequestedAt := Some(requestedAt),
                     refundFailedAt := Some(failedAt), lastRefundFailure := Some(failure), updatedAt := failedAt);
      }
    }

    // Payment, fulfilment and refund of a placed order.
    method Fulfil(a: Args, s: Scenario, paymentId: nat, placedAt: int, via: Method, refundReason: Option<string>)
        returns (b: Bundle)
      requires rng.Valid() && a.createdAt < placedAt && ScenarioOf(FULFILLED, s)
      requires (via == CASH ==> s == FulfilledCash || s == FulfilledRefunded) && (s == FulfilledCash ==> via == CASH)
      requires refundReason.None? <==> s == FulfilledCard || s == FulfilledCash
      requires paymentId < nextId
      modifies this, rng
      ensures rng.Valid() && nextId >= old(nextId) && b.orderStatus == FULFILLED
      ensures Shape(b, s) && WellFormed(b, a) && FreshIds(b, paymentId, nextId)
      ensures b.payment.Some? && b.placedAt == Some(placedAt)
      ensures b.payment.value.via == Some(via) && b.payment.value.refundReason == refundReason
      ensures FulfilledSo(b, b.payment.value, placedAt, via, s, old(rng.Word()))
      ensures rng.Word() == AfterFulfilment(via, s, old(rng.Word()))
    {
      ghost var w := rng.Word();
      var paidAt, attempts := Collect(paymentId, a.totalCents, placedAt, via);
      var fulfilledAt := AddMinutes(paidAt, 10, 48 * 60);
      var paid := PaidRow(a, paymentId, via, placedAt, paidAt, refundReason);
      var row := RefundAfterFulfilment(paid, s, fulfilledAt);
      b := Bundle(FULFILLED, fulfilledAt, Some(placedAt), None, Some(row), attempts);
      FulfilledIsWellFormed(a, s, via, placedAt, paidAt, fulfilledAt, paid, row, attempts);
      FulfilledIsDrawn(b, row, placedAt, via, s, paid, w);
      IdsAreFresh(b, paymentId, nextId);
    }

    method BuildFulfilled(a: Args) returns (b: Bundle, ghost scenario: Scenario)
      requires rng.Valid()
      modifies this, rng
      ensures rng.Valid() && nextId >= old(nextId)
      ensures IsHistory(b, a, FULFILLED, scenario, old(rng.Word()), rng.Word(), old(nextId), nextId)
    {
      var placedAt := AddMinutes(a.createdAt, 5, 24 * 60);
      var paymentId := FreshId();
      var s := PickScenario(FULFILLED);
      scenario := s;
      b := FulfilPlaced(a, s, paymentId, placedAt);
    }

    method FulfilPlaced(a: Args, s: Scenario, paymentId: nat, placedAt: int) returns (b: Bundle)
      requires rng.Valid() && a.createdAt < placedAt && ScenarioOf(FULFILLED, s) && paymentId < nextId
      modifies this, rng
      ensures rng.Valid() && nextId >= old(nextId) && b.orderStatus == FULFILLED
      ensures Shape(b, s) && WellFormed(b, a) && FreshIds(b, paymentId, nextId)
      ensures b.payment.Some? && b.payment.value.via.Some? && b.placedAt == Some(placedAt)
      ensures FulfilledFrom(b, b.payment.value, b.payment.value.via.value, placedAt, s, old(rng.Word()))
      ensures rng.Word() == AfterFulfilledFrom(b.payment.value.via.value, s, old(rng.Word()))
    {
      ghost var w := rng.Word();
      var refundReason := ReturnReason(s);
      var via := FulfilledVia(s);
      b := Fulfil(a, s, paymentId, placedAt, via, refundReason);
      FulfilledFromParts(b, b.payment.value, via, refundReason, placedAt, s, w);
    }

    method BuildUnpaidCancellation(a: Args) returns (b: Bundle)
      requires rng.Valid()
      modifies this, rng
      ensures rng.Valid() && nextId >= old(nextId)
      ensures Shape(b, UnpaidAfterConfirmation) && WellFormed(b, a) && FreshIds(b, old(nextId), nextId)
      ensures b.placedAt == Some(At(a.createdAt, 5, 1440, NextWord(old(rng.Word()))))
      ensures AbandonedSo(b, b.placedAt.value, NextWord(old(rng.Word())))
      ensures rng.Word() == AfterAbandoned(NextWord(old(rng.Word())))
    {
      var placedAt := AddMinutes(a.createdAt, 5, 24 * 60);
      var cancelledAt := AddHours(placedAt, 1, 48);
      var paymentId := FreshId();
      var row := PlacedRow(a, paymentId, placedAt);
      var attempts := [];
      var failure := "Payment attempt was cancelled before completion";
      var attempted := rng.RngBool(0.3);
      if attempted {
        var attemptAt := AddMinutes(placedAt, 1, 45);
        row := row.(via := Some(CARD), paymentStatus := FAILED, updatedAt := attemptAt,
                    lastPaymentFailure := Some(failure));
        var attempt := CreateAttempt(paymentId, a.totalCents, CANCELED, attemptAt, attemptAt, Some(failure));
        attempts := [attempt];
      }
      UnpaidCancellationIsWellFormed(a, placedAt, cancelledAt, row, attempts, failure);
      b := Bundle(CANCELLED, cancelledAt, Some(placedAt), Some(cancelledAt), Some(row), attempts);
    }

    method BuildRefundedCancellation(a: Args) returns (b: Bundle)
      requires rng.Valid()
      modifies this, rng
      ensures rng.Valid() && nextId >= old(nextId)
      ensures Shape(b, RefundedAfterPayment) && WellFormed(b, a) && FreshIds(b, old(nextId), nextId)
      ensures b.placedAt == Some(At(a.createdAt, 5, 1440, NextWord(old(rng.Word()))))
      ensures var x := NextWord(NextWord(old(rng.Word())));
              && b.payment.Some? && RefundedCancellationSo(b, b.payment.value, b.placedAt.value, CancelledVia(x), x)
              && rng.Word() == AfterRefundedCancellation(CancelledVia(x), x)
    {
      var placedAt := AddMinutes(a.createdAt, 5, 24 * 60);
      var paymentId := FreshId();
      var cash := rng.RngBool(0.35);
      b := RefundPlaced(a, if cash then CASH else CARD, paymentId, placedAt);
    }

    method RefundPlaced(a: Args, via: Method, paymentId: nat, placedAt: int) returns (b: Bundle)
      requires rng.Valid() && a.createdAt < placedAt && paymentId < nextId
      modifies this, rng
      ensures rng.Valid() && nextId >= old(nextId) && b.placedAt == Some(placedAt)
      ensures Shape(b, RefundedAfterPayment) && WellFormed(b, a) && FreshIds(b, paymentId, nextId)
      ensures b.payment.Some? && RefundedCancellationSo(b, b.payment.value, placedAt, via, old(rng.Word()))
      ensures rng.Word() == AfterRefundedCancellation(via, old(rng.Word()))
    {
      ghost var w := rng.Word();
      var paidAt, attempts := Collect(paymentId, a.totalCents, placedAt, via);
      var requestedAt := AddHours(paidAt, 1, 48);
      var refundedAt := AddMinutes(requestedAt, 5, 180);
      var cancelledAt := AddMinutes(refundedAt, 1, 30);
      var stripeRefundId: Option<nat> := None;
      if via == CARD {
        var refundId := FreshId();
        stripeRefundId := Some(refundId);
      }
      var reason, _ := rng.RngPick(CANCEL_REASONS);
      var paid := PaidRow(a, paymentId, via, placedAt, paidAt, Some(reason));
      RefundedCancellationIsWellFormed(a, via, placedAt, paidAt, requestedAt, refundedAt, cancelledAt, paid,
                                       stripeRefundId, attempts);
      var row := paid.(refundStatus := REFUNDED, stripeRefundId := stripeRefundId, updatedAt := refundedAt,
                       refundRequestedAt := Some(requestedAt), refundedAt := Some(refundedAt));
      b := Bundle(CANCELLED, cancelledAt, Some(placedAt), Some(cancelledAt), Some(row), attempts);
      RefundedCancellationIsDrawn(b, row, placedAt, via, paidAt, requestedAt, refundedAt, w);
      IdsAreFresh(b, paymentId, nextId);
    }

    method BuildPreConfirmation(a: Args) returns (b: Bundle)
      requires rng.Valid()
      modifies rng
      ensures rng.Valid() && b.orderStatus == CANCELLED
      ensures Shape(b, PreConfirmation) && WellFormed(b, a) && FreshIds(b, nextId, nextId)
      ensures b.orderUpdatedAt == At(a.createdAt, 60, 72 * 60, rng.Word()) && rng.Word() == NextWord(old(rng.Word()))
    {
      var cancelledAt := AddHours(a.createdAt, 1, 72);
      b := Bundle(CANCELLED, cancelledAt, None, Some(cancelledAt), None, []);
    }

    method BuildCancelled(a: Args) returns (b: Bundle, ghost scenario: Scenario)
      requires rng.Valid()
      modifies this, rng
      ensures rng.Valid() && nextId >= old(nextId)
      ensures IsHistory(b, a, CANCELLED, scenario, old(rng.Word()), rng.Word(), old(nextId), nextId)
    {
      var s := PickScenario(CANCELLED);
      scenario := s;
      if s == PreConfirmation {
        b := BuildPreConfirmation(a);
      } else if s == UnpaidAfterConfirmation {
        b := BuildUnpaidCancellation(a);
      } else {
        b := BuildRefundedCancellation(a);
      }
      CancellationIsHistory(b, a, s, old(rng.Word()), rng.Word(), old(nextId), nextId);
    }

    method BuildPending(a: Args) returns (b: Bundle, ghost scenario: Scenario)
      requires rng.Valid()
      modifies rng
      ensures rng.Valid()
      ensures IsHistory(b, a, PENDING, scenario, old(rng.Word()), rng.Word(), nextId, nextId)
    {
      var updatedAt := AddHours(a.createdAt, 0, 4);
      b, scenario := Bundle(PENDING, updatedAt, None, None, None, []), Untouched;
    }

    /** Whatever the generator draws, the history is well formed and is the one drawn. */
    method BuildSeedPaymentBundle(a: Args, status: OrderStatus) returns (b: Bundle, ghost scenario: Scenario)
      requires rng.Valid()
      modifies this, rng
      ensures rng.Valid() && nextId >= old(nextId)
      ensures IsHistory(b, a, status, scenario, old(rng.Word()), rng.Word(), old(nextId), nextId)
    {
      match status {
        case PENDING => b, scenario := BuildPending(a);
        case CONFIRMED => b, scenario := BuildConfirmed(a);
        case FULFILLED => b, scenario := BuildFulfilled(a);
        case CANCELLED => b, scenario := BuildCancelled(a);
      }
    }
  }

  lemma WeightTotal(status: OrderStatus)
    ensures Sum(Weights(status)) == 100
  {
    if status == CONFIRMED {
      SumOfThree(35, 15, 15);
      SumSnoc([35, 15, 15], 20);
      SumSnoc([35, 15, 15, 20], 15);
      assert Weights(status) == [35, 15, 15] + [20] + [15];
    } else if status == FULFILLED {
      SumOfThree(55, 20, 10);
      SumSnoc([55, 20, 10], 7);
      SumSnoc([55, 20, 10, 7], 8);
      assert Weights(status) == [55, 20, 10] + [7] + [8];
    } else if status == CANCELLED {
      SumOfThree(35, 40, 25);
    } else {
      SumSnoc([], 100);
      assert [] + [100] == Weights(status);
    }
  }

  lemma SumOfThree(a: nat, b: nat, c: nat)
    ensures Sum([a, b, c]) == a + b + c
  {
    SumSnoc([], a);
    SumSnoc([a], b);
    SumSnoc([a, b], c);
    assert [] + [a] == [a] && [a] + [b] == [a, b] && [a, b] + [c] == [a, b, c];
  }
}

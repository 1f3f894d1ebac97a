/**
 * What each operation and each report from Stripe leaves in the payment record
 * (backend/src/domain/payment/payment.service.ts:84-1217), told by its outcome.
 */
module PaymentRecords {
  import opened Wrappers
  import opened OrderTypes
  import opened Lifecycle

  predicate Declined(i: Intent) {
    i == IntentRequiresMethod || i == IntentCanceled
  }

  predicate NeedsCustomer(i: Intent) {
    i == IntentRequiresAction || i == IntentRequiresConfirmation
  }

  // The outcome of a report i on an attempt for the record p.
  ghost predicate PaymentReported(p: Payment, p': Payment, id: nat, i: Intent) {
    && p' == p.(via := Some(CARD), paymentStatus := p'.paymentStatus, paid := p'.paid, attempts := p'.attempts)
    && (p'.paymentStatus == PAID <==> i == IntentSucceeded)
    && (p'.paymentStatus == FAILED <==> Declined(i)) && p'.paymentStatus != UNPAID
    && (p'.paid <==> i == IntentSucceeded || (p.paid && !Declined(i)))
    && |p'.attempts| == |p.attempts|
    && forall k :: 0 <= k < |p.attempts| ==> AttemptReported(p.attempts[k], p'.attempts[k], id, i)
  }

  ghost predicate AttemptReported(a: Attempt, a': Attempt, id: nat, i: Intent) {
    if a.id != id then a' == a
    else
      && a'.id == id
      && (a'.status == SUCCEEDED <==> i == IntentSucceeded)
      && (a'.status == ATTEMPT_FAILED <==> i == IntentRequiresMethod)
      && (a'.status == CANCELED <==> i == IntentCanceled)
      && (a'.status == REQUIRES_ACTION <==> NeedsCustomer(i))
  }

  lemma AppliedIntent(p: Payment, id: nat, i: Intent)
    ensures PaymentReported(p, ApplyIntent(p, id, i), id, i)
  {
  }

  /** A report on an attempt decides the record and that attempt, whatever they said, and changes nothing else. */
  lemma IntentIsRecorded(o: Order, id: nat, i: Intent)
    requires Accepts(o, SyncIntent(id, i))
    ensures var o' := Step(o, SyncIntent(id, i));
            && o'.payment.Some? && o' == o.(payment := o'.payment)
            && PaymentReported(o.payment.value, o'.payment.value, id, i)
  {
    AppliedIntent(o.payment.value, id, i);
  }

  // The newest attempt is still in progress.
  predicate InProgress(p: Payment) {
    && p.paymentStatus == AWAITING && p.attempts != []
    && p.attempts[0].status != SUCCEEDED && p.attempts[0].status != ATTEMPT_FAILED && p.attempts[0].status != CANCELED
  }

  /**
   * Cancelling a confirmed order cancels the card attempt in progress, if any: what
   * Stripe answers is recorded like a report on it. Any other payment is kept as it is.
   */
  lemma CancellationIsRecorded(o: Order, answer: Intent)
    requires Consistent(o) && o.status == CONFIRMED && Accepts(o, Cancel(answer))
    ensures var o', p := Step(o, Cancel(answer)), o.payment.value;
            && o'.payment.Some? && o' == o.(payment := o'.payment, status := CANCELLED, cancelled := true)
            && (if InProgress(p) then PaymentReported(p, o'.payment.value, p.attempts[0].id, answer)
                else o'.payment.value == p)
  {
    if InProgress(o.payment.value) { AppliedIntent(o.payment.value, o.payment.value.attempts[0].id, answer); }
  }

  /**
   * After a card payment is started the newest attempt is in progress. One that
   * was in progress already is used again; otherwise a new one is put before the others.
   */
  lemma CardStartIsRecorded(o: Order)
    requires Consistent(o) && Accepts(o, StartCard)
    ensures var o', p := Step(o, StartCard), o.payment.value;
            && o'.payment.Some? && InProgress(o'.payment.value) && o'.payment.value.via == Some(CARD)
            && (InProgress(p) ==> o' == o)
            && (!InProgress(p) ==>
                  && o'.payment.value.attempts == [Attempt(o.nextId, STARTED)] + p.attempts
                  && o' == o.(payment := o'.payment, nextId := o.nextId + 1)
                  && o'.payment.value == p.(via := Some(CARD), paymentStatus := AWAITING,
                                            attempts := o'.payment.value.attempts))
  {
  }

  // What a report leaves as the refund's status.
  ghost predicate RefundReported(r: StripeRefund, status: RefundStatus) {
    && (status == REFUNDED <==> r == RefundSucceeded)
    && (status == REFUND_FAILED <==> r == RefundFailed || r == RefundCanceled)
    && (status == IN_PROGRESS <==> r == RefundOther)
  }

  /** A report on the refund decides its status; a refunded order that was confirmed becomes a cancelled one. */
  lemma RefundIsRecorded(o: Order, r: StripeRefund)
    requires Consistent(o) && Accepts(o, SyncRefund(r))
    ensures var o', p := Step(o, SyncRefund(r)), o.payment.value;
            && o'.payment.Some? && RefundReported(r, o'.payment.value.refundStatus)
            && o'.payment.value == p.(refundStatus := o'.payment.value.refundStatus)
            && (if r == RefundSucceeded && o.status == CONFIRMED
                then o' == o.(payment := o'.payment, status := CANCELLED, cancelled := true)
                else o' == o.(payment := o'.payment))
  {
  }

  /** A request to Stripe that fails is a failed refund. */
  lemma RefundErrorIsRecorded(o: Order)
    requires Consistent(o) && Accepts(o, RefundError)
    ensures var o' := Step(o, RefundError);
            o'.payment.Some? && o'.payment.value == o.payment.value.(refundStatus := REFUND_FAILED) &&
            o' == o.(payment := o'.payment)
  {
  }

  /**
   * While a refund is under way none may be asked for; afterwards one may be asked
   * for again exactly when Stripe reported the refund as failed or canceled.
   */
  lemma RefundAgainIff(o: Order, r: StripeRefund)
    requires Reachable(o) && o.payment.Some? && o.payment.value.paymentStatus == PAID
    requires o.payment.value.refundStatus == REQUESTED || o.payment.value.refundStatus == IN_PROGRESS
    requires o.status == CONFIRMED || o.status == FULFILLED
    ensures !Accepts(o, RequestRefund)
    ensures Accepts(Step(o, SyncRefund(r)), RequestRefund) <==> r == RefundFailed || r == RefundCanceled
    ensures Accepts(Step(o, RefundError), RequestRefund)
  {
    var events :| Reaches(events, o);
    RunsAreConsistent(events);
    CalmRunsSettle(events);
    RefundIsRecorded(o, r);
    RefundErrorIsRecorded(o);
    SettledRefundable(o, Step(o, SyncRefund(r)));
    SettledRefundable(o, Step(o, RefundError));
  }

  // The refund's status alone decides for a settled, paid order.
  lemma SettledRefundable(o: Order, o': Order)
    requires Consistent(o) && Settled(o) && o.payment.Some? && o.payment.value.paymentStatus == PAID
    requires o'.payment.Some? && o'.payment.value == o.payment.value.(refundStatus := o'.payment.value.refundStatus)
    requires o'.status == o.status || o'.status == CANCELLED
    requires o.status == CONFIRMED || o.status == FULFILLED
    ensures Accepts(o', RequestRefund) <==>
            o'.status == o.status &&
            (o'.payment.value.refundStatus == NO_REFUND || o'.payment.value.refundStatus == REFUND_FAILED)
  {
    assert o.payment.value.via.value == CARD || o.payment.value.via.value == CASH;
  }

  /**
   * A refund is accepted for exactly the orders that are confirmed or fulfilled and
   * paid, with no refund under way or done, and for a card payment with an attempt
   * that succeeded. Cash is refunded at once; for a card Stripe is asked.
   */
  lemma RefundRequestIsRecorded(o: Order)
    requires Consistent(o)
    ensures Accepts(o, RequestRefund) <==>
            && (o.status == CONFIRMED || o.status == FULFILLED) && o.payment.value.paymentStatus == PAID
            && (o.payment.value.refundStatus == NO_REFUND || o.payment.value.refundStatus == REFUND_FAILED)
            && (o.payment.value.via == Some(CARD) ==> HasSuccess(o.payment.value))
    ensures Accepts(o, RequestRefund) ==>
              var o', cash := Step(o, RequestRefund), o.payment.value.via == Some(CASH);
              && o'.payment.Some?
              && o'.payment.value ==
                 o.payment.value.(asked := true, refundStatus := if cash then REFUNDED else REQUESTED)
              && o' == (if cash && o.status == CONFIRMED
                        then o.(payment := o'.payment, status := CANCELLED, cancelled := true)
                        else o.(payment := o'.payment))
  {
    assert Backfilled(o) == o;
    if o.payment.Some? && o.payment.value.paymentStatus == PAID {
      assert o.payment.value.via.value == CARD || o.payment.value.via.value == CASH;
    }
  }

  /** Cash is marked for exactly the confirmed orders that are not paid, with no card payment or refund under way. */
  lemma CashIsRecorded(o: Order)
    requires Consistent(o)
    ensures Accepts(o, MarkCash) <==>
            && o.status == CONFIRMED
            && (o.payment.value.paymentStatus == UNPAID || o.payment.value.paymentStatus == FAILED)
            && o.payment.value.refundStatus != REQUESTED && o.payment.value.refundStatus != IN_PROGRESS
    ensures Accepts(o, MarkCash) ==>
              var o' := Step(o, MarkCash);
              && o'.payment == Some(o.payment.value.(via := Some(CASH), paymentStatus := PAID, paid := true))
              && o' == o.(payment := o'.payment)
  {
    assert Backfilled(o) == o;
  }

  /**
   * An order from before payments gets a record when a refund is asked for, unless it
   * was never placed: paid if it is fulfilled, unpaid otherwise, without a method or attempts.
   */
  lemma LegacyOrderGetsRecord(o: Order)
    requires o.payment.None?
    ensures var o', unplaced := Step(o, RequestRefund), o.status == PENDING || (o.status == CANCELLED && !o.placed);
            && (o'.payment.Some? <==> !unplaced) && o' == o.(payment := o'.payment, nextId := o'.nextId)
            && (o'.payment.Some? ==>
                  var p := o'.payment.value;
                  && p.id == o.nextId && o'.nextId == o.nextId + 1 && p.via == None && p.attempts == []
                  && p.refundStatus == NO_REFUND && !p.asked
                  && p.paymentStatus == (if o.status == FULFILLED then PAID else UNPAID)
                  && (p.paid <==> o.status == FULFILLED))
  {
  }
}

/**
 * The seed's invented histories against the services: every bundle the seed
 * can draw is one that some calm run of accepted operations leads to.
 */
module SeedHistories {
  import opened Wrappers
  import opened OrderTypes
  import opened Lifecycle
  import Bundles = PaymentBundles

  // The order is in the state the bundle describes, ids aside.
  ghost predicate Matches(o: Order, b: Bundles.Bundle) {
    && o.status == b.orderStatus && (o.placed <==> b.placedAt.Some?) && (o.cancelled <==> b.cancelledAt.Some?)
    && (o.payment.Some? <==> b.payment.Some?)
    && (o.payment.Some? ==>
          var p, row := o.payment.value, b.payment.value;
          && p.via == row.via && p.paymentStatus == row.paymentStatus && p.refundStatus == row.refundStatus
          && (p.paid <==> row.paidAt.Some?) && (p.asked <==> row.refundRequestedAt.Some?)
          && |p.attempts| == |b.attempts|
          && forall k :: 0 <= k < |p.attempts| ==> p.attempts[k].status == b.attempts[k].status)
  }

  // The state with at most one attempt that the scenarios end in.
  function State(
    status: OrderStatus, via: Option<Method>, paid: PaymentStatus, refund: RefundStatus, attempts: seq<AttemptStatus>)
    : Order
    requires |attempts| <= 1
  {
    Order(status, true, status == CANCELLED,
          Some(Payment(0, via, paid, refund, paid == PAID, refund != NO_REFUND,
                       if attempts == [] then [] else [Attempt(1, attempts[0])])), 1 + |attempts|)
  }

  lemma Unpaid()
    ensures Reachable(State(CONFIRMED, None, UNPAID, NO_REFUND, []))
  {
    assert Reaches([], NEW_ORDER);
    Follow(NEW_ORDER, Confirm);
  }

  lemma Started()
    ensures Reachable(State(CONFIRMED, Some(CARD), AWAITING, NO_REFUND, [STARTED]))
  {
    Unpaid();
    assert [Attempt(1, STARTED)] + [] == [Attempt(1, STARTED)];
    Follow(State(CONFIRMED, None, UNPAID, NO_REFUND, []), StartCard);
  }

  lemma OneAttempt(before: AttemptStatus, after: AttemptStatus)
    ensures WithAttempt([Attempt(1, before)], 1, after) == [Attempt(1, after)]
    ensures [Attempt(1, before)][0].id == 1
  {
  }

  lemma Synced(o: Order, i: Intent, paid: PaymentStatus, attempt: AttemptStatus)
    requires o == State(CONFIRMED, Some(CARD), AWAITING, NO_REFUND, [STARTED])
    requires paid == StatusAfter(i) && attempt == AttemptAfter(i)
    ensures Accepts(o, SyncIntent(1, i))
    ensures Next(o, SyncIntent(1, i)) == State(CONFIRMED, Some(CARD), paid, NO_REFUND, [attempt])
  {
    OneAttempt(STARTED, attempt);
    assert o.payment.value.attempts[0].id == 1;
  }

  // The card attempt ends, or waits, as Stripe reports.
  lemma Reported(i: Intent)
    ensures Reachable(State(CONFIRMED, Some(CARD), StatusAfter(i), NO_REFUND, [AttemptAfter(i)]))
  {
    Started();
    var o := State(CONFIRMED, Some(CARD), AWAITING, NO_REFUND, [STARTED]);
    Synced(o, i, StatusAfter(i), AttemptAfter(i));
    Follow(o, SyncIntent(1, i));
  }

  lemma AttemptReaches(status: PaymentStatus, attempt: AttemptStatus)
    requires Bundles.AttemptFits(status, attempt)
    ensures Reachable(State(CONFIRMED, Some(CARD), status, NO_REFUND, [attempt]))
  {
    Reported(if attempt == STARTED then IntentProcessing else if attempt == REQUIRES_ACTION then IntentRequiresAction
             else if attempt == ATTEMPT_FAILED then IntentRequiresMethod else if attempt == CANCELED then IntentCanceled
             else IntentSucceeded);
  }

  lemma PaidBy(m: Method)
    ensures Reachable(State(CONFIRMED, Some(m), PAID, NO_REFUND, if m == CARD then [SUCCEEDED] else []))
  {
    if m == CARD {
      AttemptReaches(PAID, SUCCEEDED);
    } else {
      Unpaid();
      Follow(State(CONFIRMED, None, UNPAID, NO_REFUND, []), MarkCash);
    }
  }

  lemma FulfilledBy(m: Method)
    ensures Reachable(State(FULFILLED, Some(m), PAID, NO_REFUND, if m == CARD then [SUCCEEDED] else []))
  {
    PaidBy(m);
    Follow(State(CONFIRMED, Some(m), PAID, NO_REFUND, if m == CARD then [SUCCEEDED] else []), Fulfill);
  }

  lemma CardRefundAsked(status: OrderStatus)
    requires status == CONFIRMED || status == FULFILLED
    ensures Reachable(State(status, Some(CARD), PAID, REQUESTED, [SUCCEEDED]))
  {
    if status == CONFIRMED { PaidBy(CARD); } else { FulfilledBy(CARD); }
    var paid := State(status, Some(CARD), PAID, NO_REFUND, [SUCCEEDED]);
    assert paid.payment.value.attempts[0].status == SUCCEEDED;
    Follow(paid, RequestRefund);
  }

  // What settles a card refund that was asked for.
  function AnswerOf(refund: RefundStatus): Event {
    if refund == IN_PROGRESS then SyncRefund(RefundOther)
    else if refund == REFUNDED then SyncRefund(RefundSucceeded) else RefundError
  }

  function AfterRefund(status: OrderStatus, refund: RefundStatus): Order {
    var settled := if refund == REFUNDED && status == CONFIRMED then CANCELLED else status;
    State(settled, Some(CARD), PAID, refund, [SUCCEEDED])
  }

  lemma RefundAnswered(status: OrderStatus, refund: RefundStatus, e: Event)
    requires status == CONFIRMED || status == FULFILLED
    requires refund == IN_PROGRESS || refund == REFUND_FAILED || refund == REFUNDED
    requires e == AnswerOf(refund)
    ensures var asked := State(status, Some(CARD), PAID, REQUESTED, [SUCCEEDED]);
            Step(asked, e) == AfterRefund(status, refund) && !Contradicts(asked, e)
  {
  }

  // A card refund in any state, before or after fulfilment.
  lemma CardRefund(status: OrderStatus, refund: RefundStatus)
    requires status == CONFIRMED || status == FULFILLED
    requires refund == IN_PROGRESS || refund == REFUND_FAILED || refund == REFUNDED
    ensures Reachable(AfterRefund(status, refund))
  {
    CardRefundAsked(status);
    RefundAnswered(status, refund, AnswerOf(refund));
    Follow(State(status, Some(CARD), PAID, REQUESTED, [SUCCEEDED]), AnswerOf(refund));
  }

  lemma CashRefund(status: OrderStatus)
    requires status == CONFIRMED || status == FULFILLED
    ensures Reachable(State(if status == CONFIRMED then CANCELLED else status, Some(CASH), PAID, REFUNDED, []))
  {
    if status == CONFIRMED { PaidBy(CASH); } else { FulfilledBy(CASH); }
    Follow(State(status, Some(CASH), PAID, NO_REFUND, []), RequestRefund);
  }

  lemma CancelledUnpaid()
    ensures Reachable(State(CANCELLED, None, UNPAID, NO_REFUND, []))
  {
    Unpaid();
    Follow(State(CONFIRMED, None, UNPAID, NO_REFUND, []), Cancel(IntentCanceled));
  }

  // A failed card payment survives the cancellation.
  lemma CancelledFailed(attempt: AttemptStatus)
    requires Bundles.AttemptFits(FAILED, attempt)
    ensures Reachable(State(CANCELLED, Some(CARD), FAILED, NO_REFUND, [attempt]))
  {
    AttemptReaches(FAILED, attempt);
    Follow(State(CONFIRMED, Some(CARD), FAILED, NO_REFUND, [attempt]), Cancel(IntentCanceled));
  }

  lemma WithoutPayment(status: OrderStatus)
    requires status == PENDING || status == CANCELLED
    ensures Reachable(Order(status, false, status == CANCELLED, None, 0))
  {
    assert Reaches([], NEW_ORDER);
    if status == CANCELLED { Follow(NEW_ORDER, Cancel(IntentCanceled)); }
  }

  // The state a bundle's statuses describe.
  ghost function StateOf(b: Bundles.Bundle): Order
    requires |b.attempts| <= 1
  {
    if b.payment.None? then Order(b.orderStatus, false, b.orderStatus == CANCELLED, None, 0)
    else
      var p := b.payment.value;
      State(b.orderStatus, p.via, p.paymentStatus, p.refundStatus,
            if b.attempts == [] then [] else [b.attempts[0].status])
  }

  lemma StateMatches(b: Bundles.Bundle, a: Bundles.Args)
    requires Bundles.WellFormed(b, a)
    ensures |b.attempts| <= 1 && (b.orderStatus == PENDING ==> b.payment.None?) ==> Matches(StateOf(b), b)
  {
  }

  lemma ConfirmedReachable(b: Bundles.Bundle, a: Bundles.Args, s: Bundles.Scenario)
    requires Bundles.WellFormed(b, a) && Bundles.Shape(b, s) && b.orderStatus == CONFIRMED
    ensures |b.attempts| <= 1 && Reachable(StateOf(b))
  {
    var p := b.payment.value;
    if p.via == Some(CARD) {
      AttemptReaches(p.paymentStatus, b.attempts[0].status);
    } else if p.via == Some(CASH) {
      PaidBy(CASH);
    } else {
      Unpaid();
    }
  }

  lemma FulfilledReachable(b: Bundles.Bundle, a: Bundles.Args, s: Bundles.Scenario)
    requires Bundles.WellFormed(b, a) && Bundles.Shape(b, s) && b.orderStatus == FULFILLED
    ensures |b.attempts| <= 1 && Reachable(StateOf(b))
  {
    var p := b.payment.value;
    if p.refundStatus == NO_REFUND {
      FulfilledBy(p.via.value);
    } else if p.via == Some(CASH) {
      CashRefund(FULFILLED);
    } else {
      CardRefund(FULFILLED, p.refundStatus);
    }
  }

  lemma CancelledReachable(b: Bundles.Bundle, a: Bundles.Args, s: Bundles.Scenario)
    requires Bundles.WellFormed(b, a) && Bundles.Shape(b, s) && b.orderStatus == CANCELLED && b.payment.Some?
    ensures |b.attempts| <= 1 && Reachable(StateOf(b))
  {
    var p := b.payment.value;
    if p.refundStatus == REFUNDED {
      if p.via == Some(CASH) { CashRefund(CONFIRMED); } else { CardRefund(CONFIRMED, REFUNDED); }
    } else if p.via == Some(CARD) {
      CancelledFailed(b.attempts[0].status);
    } else {
      CancelledUnpaid();
    }
  }

  /** Every bundle of every scenario is in a state that a calm run of accepted operations leads to. */
  lemma BundlesAreReachable(b: Bundles.Bundle, a: Bundles.Args, s: Bundles.Scenario)
    requires Bundles.WellFormed(b, a) && Bundles.Shape(b, s)
    ensures exists o :: Reachable(o) && Matches(o, b)
  {
    if b.payment.None? {
      WithoutPayment(b.orderStatus);
    } else if b.orderStatus == CONFIRMED {
      ConfirmedReachable(b, a, s);
    } else if b.orderStatus == FULFILLED {
      FulfilledReachable(b, a, s);
    } else {
      CancelledReachable(b, a, s);
    }
    StateMatches(b, a);
    assert Reachable(StateOf(b)) && Matches(StateOf(b), b);
  }
}

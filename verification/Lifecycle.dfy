/**
 * The order and payment services as a step function over one order and its
 * payment record (backend/src/domain/order/order.service.ts:222-419, 757-781,
 * backend/src/domain/payment/payment.service.ts:84-1217).
 */
module Lifecycle {
  import opened Wrappers
  import opened OrderTypes

  datatype Attempt = Attempt(id: nat, status: AttemptStatus)

  // asked: refundRequestedAt is set; paid: paidAt is set. The newest attempt comes first.
  datatype Payment = Payment(
    id: nat, via: Option<Method>, paymentStatus: PaymentStatus, refundStatus: RefundStatus, paid: bool, asked: bool,
    attempts: seq<Attempt>)

  // placed and cancelled: placedAt and cancelledAt are set. Ids below nextId have been handed out.
  datatype Order = Order(
    status: OrderStatus, placed: bool, cancelled: bool, payment: Option<Payment>, nextId: nat)

  // What Stripe reports about a payment intent or a refund.
  datatype Intent =
    | IntentSucceeded | IntentProcessing | IntentRequiresAction | IntentRequiresConfirmation
    | IntentRequiresMethod | IntentCanceled | IntentOther

  datatype StripeRefund = RefundSucceeded | RefundFailed | RefundCanceled | RefundOther

  // An operation, or a report from Stripe. Cancel and Reopen carry what
  // Stripe answers when they cancel an intent.
  datatype Event =
    | Confirm | Fulfill | Cancel(answer: Intent) | Reopen(answer: Intent)
    | StartCard | MarkCash | RequestRefund
    | SyncIntent(attemptId: nat, intent: Intent) | SyncRefund(refund: StripeRefund) | RefundError

  const NEW_ORDER: Order := Order(PENDING, false, false, None, 0)

  predicate Active(r: RefundStatus) {
    r == REQUESTED || r == IN_PROGRESS
  }

  function StatusAfter(i: Intent): PaymentStatus {
    match i
    case IntentSucceeded => PAID
    case IntentRequiresMethod => FAILED
    case IntentCanceled => FAILED
    case IntentProcessing => AWAITING
    case IntentRequiresAction => AWAITING
    case IntentRequiresConfirmation => AWAITING
    case IntentOther => AWAITING
  }

  function AttemptAfter(i: Intent): AttemptStatus {
    match i
    case IntentSucceeded => SUCCEEDED
    case IntentRequiresMethod => ATTEMPT_FAILED
    case IntentCanceled => CANCELED
    case IntentProcessing => STARTED
    case IntentRequiresAction => REQUIRES_ACTION
    case IntentRequiresConfirmation => REQUIRES_ACTION
    case IntentOther => STARTED
  }

  function WithAttempt(attempts: seq<Attempt>, id: nat, status: AttemptStatus): (r: seq<Attempt>)
    ensures |r| == |attempts|
  {
    seq(|attempts|, k requires 0 <= k < |attempts| =>
      if attempts[k].id == id then attempts[k].(status := status) else attempts[k])
  }

  // applyPaymentIntentStateTx: the report decides, whatever the record said.
  function ApplyIntent(p: Payment, attemptId: nat, i: Intent): Payment {
    p.(via := Some(CARD), paymentStatus := StatusAfter(i),
       paid := if StatusAfter(i) == AWAITING then p.paid else StatusAfter(i) == PAID,
       attempts := WithAttempt(p.attempts, attemptId, AttemptAfter(i)))
  }

  function RefundAfter(r: StripeRefund): RefundStatus {
    match r
    case RefundSucceeded => REFUNDED
    case RefundFailed => REFUND_FAILED
    case RefundCanceled => REFUND_FAILED
    case RefundOther => IN_PROGRESS
  }

  // getReusableAttempt: the newest attempt, while it is still in progress.
  predicate Reusable(p: Payment) {
    && p.attempts != [] && p.paymentStatus == AWAITING
    && (p.attempts[0].status == STARTED || p.attempts[0].status == REQUIRES_ACTION)
  }

  predicate HasAttempt(p: Payment, id: nat) {
    exists k :: 0 <= k < |p.attempts| && p.attempts[k].id == id
  }

  predicate HasSuccess(p: Payment) {
    exists k :: 0 <= k < |p.attempts| && p.attempts[k].status == SUCCEEDED
  }

  function NewPayment(id: nat): Payment {
    Payment(id, None, UNPAID, NO_REFUND, false, false, [])
  }

  // ensureLegacyPaymentForOrderTx: orders from before payments get a record when one is needed.
  function Backfilled(o: Order): Order {
    if o.payment.Some? || o.status == PENDING || (o.status == CANCELLED && !o.placed) then o
    else
      var p := NewPayment(o.nextId);
      var p' := if o.status == FULFILLED then p.(paymentStatus := PAID, paid := true) else p;
      o.(payment := Some(p'), nextId := o.nextId + 1)
  }

  // Not paid, not refunded, and no refund under way.
  predicate Voidable(p: Payment) {
    p.paymentStatus != PAID && p.refundStatus != REFUNDED && !Active(p.refundStatus)
  }

  predicate Refundable(o: Order, p: Payment) {
    && (o.status == CONFIRMED || o.status == FULFILLED)
    && p.paymentStatus == PAID && p.refundStatus != REFUNDED && !Active(p.refundStatus)
    && (p.via == Some(CASH) || HasSuccess(p))
  }

  // The checks of the services.
  predicate Accepts(o: Order, e: Event) {
    var payment := Backfilled(o).payment;
    match e
    case Confirm => o.status == PENDING
    case Fulfill =>
      o.status == CONFIRMED && payment.Some? && payment.value.paymentStatus == PAID &&
      payment.value.refundStatus == NO_REFUND
    case Cancel(_) => o.status == PENDING || (o.status == CONFIRMED && (payment.None? || Voidable(payment.value)))
    case Reopen(_) => o.status == CANCELLED && (payment.None? || Voidable(payment.value))
    case StartCard => o.status == CONFIRMED && payment.Some? && Voidable(payment.value)
    case MarkCash =>
      o.status == CONFIRMED && payment.Some? && !Active(payment.value.refundStatus) &&
      payment.value.paymentStatus != PAID && payment.value.paymentStatus != AWAITING
    case RequestRefund => payment.Some? && Refundable(o, payment.value)
    case SyncIntent(id, _) => o.payment.Some? && HasAttempt(o.payment.value, id)
    case SyncRefund(_) => o.payment.Some? && o.payment.value.asked
    case RefundError => o.payment.Some? && o.payment.value.asked
  }

  // A refund settles: a confirmed order that is refunded becomes a cancelled one.
  function Refunding(o: Order, r: RefundStatus): Order
    requires o.payment.Some?
  {
    var o' := o.(payment := Some(o.payment.value.(refundStatus := r)));
    if r == REFUNDED && o.status == CONFIRMED then o'.(status := CANCELLED, cancelled := true) else o'
  }

  function Next(o: Order, e: Event): Order
    requires Accepts(o, e)
  {
    var b := Backfilled(o);
    match e
    case Confirm =>
      var p := if o.payment.Some? then o.payment.value else NewPayment(o.nextId);
      Order(CONFIRMED, true, false, Some(p), o.nextId + 1)
    case Fulfill => b.(status := FULFILLED)
    case Cancel(answer) =>
      if o.status == CONFIRMED && b.payment.Some? then
        var p := b.payment.value;
        var p' := if Reusable(p) then ApplyIntent(p, p.attempts[0].id, answer) else p;
        b.(payment := Some(p'), status := CANCELLED, cancelled := true)
      else o.(status := CANCELLED, cancelled := true)
    case Reopen(_) => Order(PENDING, false, false, None, b.nextId)
    case StartCard =>
      if Reusable(b.payment.value) then b
      else
        var p := b.payment.value;
        var attempts := [Attempt(b.nextId, STARTED)] + p.attempts;
        var p' := p.(via := Some(CARD), paymentStatus := AWAITING, attempts := attempts);
        b.(payment := Some(p'), nextId := b.nextId + 1)
    case MarkCash => b.(payment := Some(b.payment.value.(via := Some(CASH), paymentStatus := PAID, paid := true)))
    case RequestRefund =>
      var asked := b.(payment := Some(b.payment.value.(refundStatus := REQUESTED, asked := true)));
      if b.payment.value.via == Some(CASH) then Refunding(asked, REFUNDED) else asked
    case SyncIntent(id, i) => o.(payment := Some(ApplyIntent(o.payment.value, id, i)))
    case SyncRefund(r) => Refunding(o, RefundAfter(r))
    case RefundError => o.(payment := Some(o.payment.value.(refundStatus := REFUND_FAILED)))
  }

  // A refused operation changes nothing, except that a refund request backfills before it checks.
  function Step(o: Order, e: Event): Order {
    if Accepts(o, e) then Next(o, e) else if e == RequestRefund then Backfilled(o) else o
  }

  function Run(o: Order, events: seq<Event>): Order {
    if events == [] then o else Step(Run(o, events[..|events| - 1]), events[|events| - 1])
  }

  // ---- What every run keeps ---------------------------------------------------------------

  // Ids are fresh, the newest attempt first; dates and method fit the statuses.
  predicate ConsistentPayment(p: Payment, nextId: nat) {
    && p.id < nextId
    && (forall k :: 0 <= k < |p.attempts| ==> p.id < p.attempts[k].id < nextId)
    && (forall j, k :: 0 <= j < k < |p.attempts| ==> p.attempts[j].id > p.attempts[k].id)
    && (p.paymentStatus == PAID ==> p.paid && p.via.Some?)
    && (p.paymentStatus == AWAITING ==> p.via == Some(CARD))
    && (p.refundStatus == NO_REFUND <==> !p.asked)
  }

  // A payment record exists exactly while the order is placed; dates fit the status.
  predicate Consistent(o: Order) {
    && (o.placed <==> o.payment.Some?)
    && (o.cancelled <==> o.status == CANCELLED)
    && (o.status == PENDING ==> !o.placed)
    && (o.status == CONFIRMED || o.status == FULFILLED ==> o.placed)
    && (o.payment.Some? ==> ConsistentPayment(o.payment.value, o.nextId))
  }

  lemma SyncKeepsConsistent(p: Payment, id: nat, i: Intent, nextId: nat)
    requires ConsistentPayment(p, nextId)
    ensures ConsistentPayment(ApplyIntent(p, id, i), nextId)
  {
  }

  lemma StepKeepsConsistent(o: Order, e: Event)
    requires Consistent(o)
    ensures Consistent(Step(o, e)) && Step(o, e).nextId >= o.nextId
  {
    if Accepts(o, e) {
      if e.SyncIntent? {
        SyncKeepsConsistent(o.payment.value, e.attemptId, e.intent, o.nextId);
      } else if e.Cancel? && o.status == CONFIRMED && Reusable(o.payment.value) {
        SyncKeepsConsistent(o.payment.value, o.payment.value.attempts[0].id, e.answer, o.nextId);
      }
    }
  }

  /** In every run the payment record exists exactly while the order is placed; no record is ever backfilled. */
  lemma {:induction false} RunsAreConsistent(events: seq<Event>)
    ensures Consistent(Run(NEW_ORDER, events))
    ensures Backfilled(Run(NEW_ORDER, events)) == Run(NEW_ORDER, events)
  {
    if events != [] {
      RunsAreConsistent(events[..|events| - 1]);
      StepKeepsConsistent(Run(NEW_ORDER, events[..|events| - 1]), events[|events| - 1]);
    }
  }

  // ---- Settled payments -------------------------------------------------------------------

  predicate PaidAs(o: Order, id: nat) {
    o.payment.Some? && o.payment.value.id == id && o.payment.value.paymentStatus == PAID
  }

  predicate RefundedAs(o: Order, id: nat) {
    o.payment.Some? && o.payment.value.id == id && o.payment.value.refundStatus == REFUNDED
  }

  // The report contradicts a settled payment: another attempt's, or one that arrives late.
  predicate Contradicts(o: Order, e: Event) {
    && o.payment.Some?
    && ((e.SyncIntent? && HasAttempt(o.payment.value, e.attemptId) && e.intent != IntentSucceeded &&
         o.payment.value.paymentStatus == PAID) ||
        (o.payment.value.refundStatus == REFUNDED &&
         (e == RefundError || (e.SyncRefund? && e.refund != RefundSucceeded))))
  }

  /** One step takes a PAID record out of PAID exactly when it is a report other than success on one of its attempts. */
  lemma PaidUntil(o: Order, e: Event, id: nat)
    requires Consistent(o) && PaidAs(o, id)
    ensures PaidAs(Step(o, e), id) <==>
            !(e.SyncIntent? && HasAttempt(o.payment.value, e.attemptId) && e.intent != IntentSucceeded)
  {
  }

  lemma RefundedUntil(o: Order, e: Event, id: nat)
    requires Consistent(o) && RefundedAs(o, id)
    ensures RefundedAs(Step(o, e), id) <==> !(e == RefundError || (e.SyncRefund? && e.refund != RefundSucceeded))
  {
  }

  /** Delivering a report a second time changes nothing. */
  lemma SyncIsIdempotent(o: Order, id: nat, i: Intent)
    requires Accepts(o, SyncIntent(id, i))
    ensures Step(Step(o, SyncIntent(id, i)), SyncIntent(id, i)) == Step(o, SyncIntent(id, i))
  {
    var p := o.payment.value;
    var once := WithAttempt(p.attempts, id, AttemptAfter(i));
    assert WithAttempt(once, id, AttemptAfter(i)) == once;
  }

  // No report of the run contradicts a settled payment.
  predicate Calm(o: Order, events: seq<Event>) {
    events == [] ||
    (Calm(o, events[..|events| - 1]) && !Contradicts(Run(o, events[..|events| - 1]), events[|events| - 1]))
  }

  // Every operation of the run is accepted.
  predicate AllAccepted(events: seq<Event>) {
    events == [] ||
    (AllAccepted(events[..|events| - 1]) && Accepts(Run(NEW_ORDER, events[..|events| - 1]), events[|events| - 1]))
  }

  ghost predicate Reaches(events: seq<Event>, o: Order) {
    AllAccepted(events) && Calm(NEW_ORDER, events) && Run(NEW_ORDER, events) == o
  }

  // Some calm run of accepted operations leads from a new order to this one.
  ghost predicate Reachable(o: Order) {
    exists events :: Reaches(events, o)
  }

  // A refused operation changes nothing, so it need not be in the run.
  lemma Follow(o: Order, e: Event)
    requires Reachable(o) && !Contradicts(o, e)
    ensures Reachable(Step(o, e))
  {
    var events :| Reaches(events, o);
    if Accepts(o, e) {
      ReachesNext(events, o, e);
    } else {
      RunsAreConsistent(events);
      assert Step(o, e) == o;
    }
  }

  lemma ReachesNext(events: seq<Event>, o: Order, e: Event)
    requires Reaches(events, o) && Accepts(o, e) && !Contradicts(o, e)
    ensures Reaches(events + [e], Step(o, e))
  {
    assert (events + [e])[..|events|] == events;
  }

  /** Every calm run leads to a reachable order. */
  lemma {:induction false} CalmRunsAreReachable(events: seq<Event>)
    requires Calm(NEW_ORDER, events)
    ensures Reachable(Run(NEW_ORDER, events))
  {
    if events == [] {
      assert Reaches([], NEW_ORDER);
    } else {
      CalmRunsAreReachable(events[..|events| - 1]);
      Follow(Run(NEW_ORDER, events[..|events| - 1]), events[|events| - 1]);
    }
  }

  // What calm runs keep besides.
  predicate Settled(o: Order) {
    && (o.status == FULFILLED ==> o.payment.Some? && o.payment.value.paymentStatus == PAID)
    && (o.payment.Some? ==>
          var p := o.payment.value;
          && (p.refundStatus != NO_REFUND ==> p.paymentStatus == PAID)
          && (p.refundStatus == REFUNDED ==> o.status == FULFILLED || o.status == CANCELLED)
          && (p.paymentStatus == PAID && p.via == Some(CARD) ==> HasSuccess(p))
          && (HasSuccess(p) ==> p.paymentStatus == PAID)
          && (p.paymentStatus == PAID <==> p.paid))
  }

  lemma SuccessRecorded(attempts: seq<Attempt>, id: nat, k: nat)
    requires k < |attempts| && attempts[k].id == id
    ensures exists j :: 0 <= j < |attempts| && WithAttempt(attempts, id, SUCCEEDED)[j].status == SUCCEEDED
  {
    assert WithAttempt(attempts, id, SUCCEEDED)[k].status == SUCCEEDED;
  }

  lemma SyncKeepsSettled(p: Payment, id: nat, i: Intent)
    requires HasAttempt(p, id) && (p.paymentStatus == PAID ==> i == IntentSucceeded)
    requires (p.paymentStatus == PAID <==> p.paid) && (HasSuccess(p) ==> p.paymentStatus == PAID)
    ensures var p' := ApplyIntent(p, id, i);
            (p'.paymentStatus == PAID <==> i == IntentSucceeded) && (p'.paymentStatus == PAID <==> p'.paid) &&
            (p'.paymentStatus == PAID <==> HasSuccess(p'))
  {
    var k :| 0 <= k < |p.attempts| && p.attempts[k].id == id;
    SuccessRecorded(p.attempts, id, k);
  }

  lemma StepKeepsSettled(o: Order, e: Event)
    requires Consistent(o) && Settled(o) && !Contradicts(o, e)
    ensures Settled(Step(o, e))
  {
    if Accepts(o, e) {
      if e.SyncIntent? {
        SyncKeepsSettled(o.payment.value, e.attemptId, e.intent);
      } else if e.Cancel? && o.status == CONFIRMED && Reusable(o.payment.value) {
        assert HasAttempt(o.payment.value, o.payment.value.attempts[0].id);
        SyncKeepsSettled(o.payment.value, o.payment.value.attempts[0].id, e.answer);
      }
    }
  }

  /**
   * Over calm runs a fulfilled order is paid, only paid orders are refunded, card
   * payments have a successful attempt, and a successful attempt has paid.
   */
  lemma {:induction false} CalmRunsSettle(events: seq<Event>)
    requires Calm(NEW_ORDER, events)
    ensures Settled(Run(NEW_ORDER, events))
  {
    if events != [] {
      var before := events[..|events| - 1];
      CalmRunsSettle(before);
      RunsAreConsistent(before);
      StepKeepsSettled(Run(NEW_ORDER, before), events[|events| - 1]);
    }
  }

  // How often a run takes the record with this id into PAID, and into REFUNDED.
  function PaidEntries(events: seq<Event>, id: nat): nat {
    if events == [] then 0
    else
      var before := Run(NEW_ORDER, events[..|events| - 1]);
      PaidEntries(events[..|events| - 1], id) +
      if PaidAs(Run(NEW_ORDER, events), id) && !PaidAs(before, id) then 1 else 0
  }

  function RefundedEntries(events: seq<Event>, id: nat): nat {
    if events == [] then 0
    else
      var before := Run(NEW_ORDER, events[..|events| - 1]);
      RefundedEntries(events[..|events| - 1], id) +
      if RefundedAs(Run(NEW_ORDER, events), id) && !RefundedAs(before, id) then 1 else 0
  }

  /**
   * Over calm runs a record enters PAID at most once and REFUNDED at most once,
   * and stays there: in particular no reopening voids a paid record.
   */
  lemma {:induction false} PaidAndRefundedOnce(events: seq<Event>, id: nat)
    requires Calm(NEW_ORDER, events)
    ensures PaidEntries(events, id) == if PaidAs(Run(NEW_ORDER, events), id) then 1 else 0
    ensures RefundedEntries(events, id) == if RefundedAs(Run(NEW_ORDER, events), id) then 1 else 0
  {
    if events != [] {
      var before, e := events[..|events| - 1], events[|events| - 1];
      var o := Run(NEW_ORDER, before);
      PaidAndRefundedOnce(before, id);
      RunsAreConsistent(before);
      CalmRunsSettle(before);
      if PaidAs(o, id) { PaidUntil(o, e, id); }
      if RefundedAs(o, id) { RefundedUntil(o, e, id); }
    }
  }

  // ---- Dead ends --------------------------------------------------------------------------

  // Cancelled with the payment kept.
  predicate Stranded(o: Order) {
    o.status == CANCELLED && o.payment.Some? && o.payment.value.paymentStatus == PAID && !o.payment.value.asked
  }

  /**
   * An order ends up cancelled with its payment kept exactly when Stripe answers
   * the cancellation of its card payment with success, or reports it afterwards.
   */
  lemma StrandedWhen(o: Order, e: Event)
    requires Consistent(o) && Settled(o) && !Contradicts(o, e) && !Stranded(o)
    ensures Stranded(Step(o, e)) <==>
            && o.payment.Some? && o.payment.value.paymentStatus != PAID
            && ((e == Cancel(IntentSucceeded) && o.status == CONFIRMED && Reusable(o.payment.value)) ||
                (e.SyncIntent? && e.intent == IntentSucceeded && o.status == CANCELLED &&
                 HasAttempt(o.payment.value, e.attemptId)))
  {
  }

  predicate Report(e: Event) {
    e.SyncIntent? || e.SyncRefund? || e.RefundError?
  }

  /** From there no operation does anything any more: no reopening, no refund, no fulfilment. */
  lemma {:induction false} StrandedForGood(o: Order, events: seq<Event>)
    requires Stranded(o) && forall k :: 0 <= k < |events| ==> !Report(events[k])
    ensures Run(o, events) == o
  {
    if events != [] {
      StrandedForGood(o, events[..|events| - 1]);
      assert !Report(events[|events| - 1]);
    }
  }

  /** A fulfilled order stays fulfilled, whatever happens. */
  lemma {:induction false} FulfilledForGood(o: Order, events: seq<Event>)
    requires o.status == FULFILLED
    ensures Run(o, events).status == FULFILLED
  {
    if events != [] {
      FulfilledForGood(o, events[..|events| - 1]);
    }
  }

  // All attempts of the order's payment have ids from lo on.
  predicate AttemptsFrom(o: Order, lo: nat) {
    && lo <= o.nextId
    && (o.payment.Some? ==>
          var attempts := o.payment.value.attempts;
          forall k :: 0 <= k < |attempts| ==> attempts[k].id >= lo)
  }

  lemma StepKeepsAttemptsFrom(o: Order, e: Event, lo: nat)
    requires AttemptsFrom(o, lo)
    ensures AttemptsFrom(Step(o, e), lo)
  {
    if Accepts(o, e) && o.payment.Some? {
      var p := o.payment.value;
      if e.SyncIntent? {
        SameIds(p, e.attemptId, e.intent);
      } else if e.Cancel? && Reusable(p) {
        SameIds(p, p.attempts[0].id, e.answer);
      }
    }
  }

  lemma SameIds(p: Payment, id: nat, i: Intent)
    ensures var p' := ApplyIntent(p, id, i);
            |p'.attempts| == |p.attempts| && forall k :: 0 <= k < |p.attempts| ==> p'.attempts[k].id == p.attempts[k].id
  {
  }

  /**
   * Reopening deletes the payment record whatever Stripe answers, success
   * included; a later report on one of its attempts is never accepted again.
   */
  lemma {:induction false} ReopenForgets(o: Order, answer: Intent, events: seq<Event>, attemptId: nat, i: Intent)
    requires Consistent(o) && Accepts(o, Reopen(answer)) && attemptId < o.nextId
    ensures Step(o, Reopen(answer)) == NEW_ORDER.(nextId := o.nextId)
    ensures !Accepts(Run(Step(o, Reopen(answer)), events), SyncIntent(attemptId, i))
  {
    VoidedAttempts(Step(o, Reopen(answer)), events, o.nextId);
  }

  lemma {:induction false} VoidedAttempts(o: Order, events: seq<Event>, lo: nat)
    requires AttemptsFrom(o, lo)
    ensures AttemptsFrom(Run(o, events), lo)
  {
    if events != [] {
      VoidedAttempts(o, events[..|events| - 1], lo);
      StepKeepsAttemptsFrom(Run(o, events[..|events| - 1]), events[|events| - 1], lo);
    }
  }
}

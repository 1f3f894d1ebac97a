/**
 * How often an order's money is collected: card attempts that succeed and cash
 * markings, over whole runs, with runs that collect twice, lose what they
 * collected, or strand it (backend/src/domain/payment/payment.service.ts:240-514, 719-778, 962-1036).
 */
module Collections {
  import opened Wrappers
  import opened OrderTypes
  import opened Lifecycle

  predicate Succeeded(p: Payment, id: nat) {
    exists k :: 0 <= k < |p.attempts| && p.attempts[k].id == id && p.attempts[k].status == SUCCEEDED
  }

  // Money is taken: cash is marked, or Stripe reports success for an attempt
  // that had not succeeded, be it in answer to a cancellation or a reopening.
  predicate Collects(o: Order, e: Event) {
    && o.payment.Some? && Accepts(o, e)
    && match e
       case MarkCash => true
       case SyncIntent(id, i) => i == IntentSucceeded && !Succeeded(o.payment.value, id)
       case Cancel(answer) => answer == IntentSucceeded && o.status == CONFIRMED && Reusable(o.payment.value)
       case Reopen(answer) => answer == IntentSucceeded && Reusable(o.payment.value)
       case Confirm => false
       case Fulfill => false
       case StartCard => false
       case RequestRefund => false
       case SyncRefund(_) => false
       case RefundError => false
  }

  // The record that is collected for has been paid already.
  predicate Repeats(o: Order, e: Event) {
    Collects(o, e) && o.payment.value.paymentStatus == PAID
  }

  // The record that is collected for is deleted in the same step.
  predicate Loses(o: Order, e: Event) {
    Collects(o, e) && e.Reopen?
  }

  function Collected(events: seq<Event>): nat {
    if events == [] then 0
    else
      var before := events[..|events| - 1];
      Collected(before) + if Collects(Run(NEW_ORDER, before), events[|events| - 1]) then 1 else 0
  }

  function Repeated(events: seq<Event>): nat {
    if events == [] then 0
    else
      var before := events[..|events| - 1];
      Repeated(before) + if Repeats(Run(NEW_ORDER, before), events[|events| - 1]) then 1 else 0
  }

  function Lost(events: seq<Event>): nat {
    if events == [] then 0
    else
      var before := events[..|events| - 1];
      Lost(before) + if Loses(Run(NEW_ORDER, before), events[|events| - 1]) then 1 else 0
  }

  // What the order's record shows.
  function Shown(o: Order): nat {
    if o.payment.Some? && o.payment.value.paymentStatus == PAID then 1 else 0
  }

  /** A step collects again for a paid record exactly when it reports success for an attempt that had not succeeded. */
  lemma RepeatsWhen(o: Order, e: Event)
    requires Consistent(o) && o.payment.Some? && o.payment.value.paymentStatus == PAID
    ensures Repeats(o, e) <==>
            && e.SyncIntent? && e.intent == IntentSucceeded
            && HasAttempt(o.payment.value, e.attemptId) && !Succeeded(o.payment.value, e.attemptId)
  {
  }

  // One step's share of the balance.
  lemma StepBalances(o: Order, e: Event)
    requires Consistent(o) && Settled(o) && !Contradicts(o, e)
    ensures (if Collects(o, e) then 1 else 0) ==
            (if Repeats(o, e) then 1 else 0) + (if Loses(o, e) then 1 else 0) + Shown(Step(o, e)) - Shown(o)
  {
    if e.SyncIntent? && Accepts(o, e) && Succeeded(o.payment.value, e.attemptId) {
      assert HasSuccess(o.payment.value);
    }
  }

  /**
   * Over every calm run, what was collected is what the record shows, what was
   * collected again for a paid record, and what was lost with a deleted one.
   */
  lemma {:induction false} CollectionsBalance(events: seq<Event>)
    requires Calm(NEW_ORDER, events)
    ensures Collected(events) == Repeated(events) + Lost(events) + Shown(Run(NEW_ORDER, events))
  {
    if events != [] {
      var before := events[..|events| - 1];
      CollectionsBalance(before);
      RunsAreConsistent(before);
      CalmRunsSettle(before);
      StepBalances(Run(NEW_ORDER, before), events[|events| - 1]);
    }
  }

  // A record collected for again is still shown as paid.
  lemma {:induction false} RepeatedIsShown(events: seq<Event>)
    requires Calm(NEW_ORDER, events)
    ensures Repeated(events) > 0 ==> Shown(Run(NEW_ORDER, events)) == 1
  {
    if events != [] {
      var before := events[..|events| - 1];
      var o := Run(NEW_ORDER, before);
      RepeatedIsShown(before);
      RunsAreConsistent(before);
      if Shown(o) == 1 { PaidUntil(o, events[|events| - 1], o.payment.value.id); }
    }
  }

  /**
   * A calm run collects at most once exactly when no success is reported for
   * another attempt of a paid record, and nothing is lost and then collected anew.
   */
  lemma CollectedOnceIff(events: seq<Event>)
    requires Calm(NEW_ORDER, events)
    ensures Collected(events) <= 1 <==>
            Repeated(events) == 0 && Lost(events) + Shown(Run(NEW_ORDER, events)) <= 1
  {
    CollectionsBalance(events);
    RepeatedIsShown(events);
  }

  // ---- Runs -----------------------------------------------------------------------------------

  // A confirmed order whose first record is paid by card.
  function Charged(status: PaymentStatus, attempts: seq<Attempt>, nextId: nat): Order {
    Order(CONFIRMED, true, false,
          Some(Payment(0, Some(CARD), status, NO_REFUND, status == PAID, false, attempts)), nextId)
  }

  lemma StartsAgain(attempts: seq<Attempt>, nextId: nat)
    ensures Step(Charged(FAILED, attempts, nextId), StartCard) ==
            Charged(AWAITING, [Attempt(nextId, STARTED)] + attempts, nextId + 1)
  {
  }

  lemma Reports(status: PaymentStatus, attempts: seq<Attempt>, nextId: nat, k: nat, i: Intent)
    requires status != PAID && k < |attempts|
    ensures Step(Charged(status, attempts, nextId), SyncIntent(attempts[k].id, i)) ==
            Charged(StatusAfter(i), WithAttempt(attempts, attempts[k].id, AttemptAfter(i)), nextId)
  {
    assert HasAttempt(Charged(status, attempts, nextId).payment.value, attempts[k].id);
  }

  // A confirmed order that is not paid yet.
  function Unpaid(): Order {
    Order(CONFIRMED, true, false, Some(NewPayment(0)), 1)
  }

  lemma UnpaidIsReachable()
    ensures Reachable(Unpaid())
  {
    assert Reaches([], NEW_ORDER);
    Follow(NEW_ORDER, Confirm);
  }

  lemma StartsFirst()
    ensures Step(Unpaid(), StartCard) == Charged(AWAITING, [Attempt(1, STARTED)], 2)
  {
    assert [Attempt(1, STARTED)] + [] == [Attempt(1, STARTED)];
  }

  lemma FirstAttempt()
    ensures Reachable(Charged(AWAITING, [Attempt(1, STARTED)], 2))
  {
    UnpaidIsReachable();
    StartsFirst();
    Follow(Unpaid(), StartCard);
  }

  lemma FirstAttemptFails()
    ensures Reachable(Charged(FAILED, [Attempt(1, ATTEMPT_FAILED)], 2))
  {
    var first, failed := [Attempt(1, STARTED)], [Attempt(1, ATTEMPT_FAILED)];
    FirstAttempt();
    Reports(AWAITING, first, 2, 0, IntentRequiresMethod);
    assert WithAttempt(first, 1, ATTEMPT_FAILED) == failed;
    Follow(Charged(AWAITING, first, 2), SyncIntent(1, IntentRequiresMethod));
  }

  lemma SecondAttempt()
    ensures Reachable(Charged(AWAITING, [Attempt(2, STARTED), Attempt(1, ATTEMPT_FAILED)], 3))
  {
    var failed := [Attempt(1, ATTEMPT_FAILED)];
    FirstAttemptFails();
    StartsAgain(failed, 2);
    assert [Attempt(2, STARTED)] + failed == [Attempt(2, STARTED), Attempt(1, ATTEMPT_FAILED)];
    Follow(Charged(FAILED, failed, 2), StartCard);
  }

  /** A calm run in which the first card attempt fails and the second succeeds. */
  lemma SecondAttemptSucceeds()
    ensures Reachable(Charged(PAID, [Attempt(2, SUCCEEDED), Attempt(1, ATTEMPT_FAILED)], 3))
  {
    var second := [Attempt(2, STARTED), Attempt(1, ATTEMPT_FAILED)];
    var both := [Attempt(2, SUCCEEDED), Attempt(1, ATTEMPT_FAILED)];
    SecondAttempt();
    Reports(AWAITING, second, 3, 0, IntentSucceeded);
    assert WithAttempt(second, 2, SUCCEEDED) == both;
    Follow(Charged(AWAITING, second, 3), SyncIntent(2, IntentSucceeded));
  }

  // The same order paid in cash.
  function InCash(attempts: seq<Attempt>, nextId: nat): Order {
    Order(CONFIRMED, true, false, Some(Payment(0, Some(CASH), PAID, NO_REFUND, true, false, attempts)), nextId)
  }

  lemma MarksCash(attempts: seq<Attempt>, nextId: nat)
    ensures Step(Charged(FAILED, attempts, nextId), MarkCash) == InCash(attempts, nextId)
  {
  }

  /** A calm run in which the first card attempt fails and the order is paid in cash. */
  lemma CashAfterFailedCard()
    ensures Reachable(InCash([Attempt(1, ATTEMPT_FAILED)], 2))
  {
    var failed := [Attempt(1, ATTEMPT_FAILED)];
    FirstAttemptFails();
    MarksCash(failed, 2);
    Follow(Charged(FAILED, failed, 2), MarkCash);
  }

  /**
   * From a paid record with an attempt that has not succeeded, as in both runs
   * above, a late success of that attempt is calm and collects a second time.
   */
  lemma LateSuccessCollectsTwice(o: Order, id: nat)
    requires Reachable(o) && o.payment.Some? && o.payment.value.paymentStatus == PAID
    requires HasAttempt(o.payment.value, id) && !Succeeded(o.payment.value, id)
    ensures exists events ::
              Calm(NEW_ORDER, events) && Run(NEW_ORDER, events) == Step(o, SyncIntent(id, IntentSucceeded)) &&
              Collected(events) >= 2
  {
    var before :| Reaches(before, o);
    var e := SyncIntent(id, IntentSucceeded);
    var events := before + [e];
    assert events[..|before|] == before;
    CollectionsBalance(before);
    assert Collects(o, e);
    assert Calm(NEW_ORDER, events) && Run(NEW_ORDER, events) == Step(o, e) && Collected(events) >= 2;
  }

  /** Card and card, and cash and card, are collected for one order without any report contradicting another. */
  lemma CollectedTwice()
    ensures exists events ::
              Calm(NEW_ORDER, events) && Collected(events) >= 2 &&
              Run(NEW_ORDER, events) == Charged(PAID, [Attempt(2, SUCCEEDED), Attempt(1, SUCCEEDED)], 3)
    ensures exists events ::
              Calm(NEW_ORDER, events) && Collected(events) >= 2 &&
              Run(NEW_ORDER, events) == Charged(PAID, [Attempt(1, SUCCEEDED)], 2)
  {
    var both := [Attempt(2, SUCCEEDED), Attempt(1, ATTEMPT_FAILED)];
    SecondAttemptSucceeds();
    CardAndCard(both);
    LateSuccessCollectsTwice(Charged(PAID, both, 3), 1);
    var failed := [Attempt(1, ATTEMPT_FAILED)];
    CashAfterFailedCard();
    CashAndCard(failed);
    LateSuccessCollectsTwice(InCash(failed, 2), 1);
  }

  lemma CardAndCard(both: seq<Attempt>)
    requires both == [Attempt(2, SUCCEEDED), Attempt(1, ATTEMPT_FAILED)]
    ensures var o := Charged(PAID, both, 3);
            && HasAttempt(o.payment.value, 1) && !Succeeded(o.payment.value, 1)
            && Step(o, SyncIntent(1, IntentSucceeded)) ==
               Charged(PAID, [Attempt(2, SUCCEEDED), Attempt(1, SUCCEEDED)], 3)
  {
    assert both[1].id == 1;
    assert WithAttempt(both, 1, SUCCEEDED) == [Attempt(2, SUCCEEDED), Attempt(1, SUCCEEDED)];
  }

  lemma CashAndCard(failed: seq<Attempt>)
    requires failed == [Attempt(1, ATTEMPT_FAILED)]
    ensures var o := InCash(failed, 2);
            && HasAttempt(o.payment.value, 1) && !Succeeded(o.payment.value, 1)
            && Step(o, SyncIntent(1, IntentSucceeded)) == Charged(PAID, [Attempt(1, SUCCEEDED)], 2)
  {
    assert failed[0].id == 1;
    assert WithAttempt(failed, 1, SUCCEEDED) == [Attempt(1, SUCCEEDED)];
  }

  /** A calm run cancels an order whose card payment Stripe then reports as succeeded: the payment is stranded. */
  lemma CanStrand()
    ensures exists o :: Reachable(o) && Stranded(o)
  {
    var first, paid := [Attempt(1, STARTED)], [Attempt(1, SUCCEEDED)];
    FirstAttempt();
    assert WithAttempt(first, 1, SUCCEEDED) == paid;
    var stranded := Charged(PAID, paid, 2).(status := CANCELLED, cancelled := true);
    Follow(Charged(AWAITING, first, 2), Cancel(IntentSucceeded));
    assert Stranded(stranded);
  }

  /** A payment can be lost: the cancellation found it processing, the reopening found it paid and deleted it. */
  lemma CanLose()
    ensures exists o :: Reachable(o) && Loses(o, Reopen(IntentSucceeded))
  {
    var first := [Attempt(1, STARTED)];
    FirstAttempt();
    assert WithAttempt(first, 1, STARTED) == first;
    var cancelled := Charged(AWAITING, first, 2).(status := CANCELLED, cancelled := true);
    Follow(Charged(AWAITING, first, 2), Cancel(IntentProcessing));
    assert Loses(cancelled, Reopen(IntentSucceeded));
  }

  // ---- Reports that contradict ------------------------------------------------------------------

  /**
   * A report that an attempt of a paid record failed or was canceled takes the
   * record back to FAILED, and then the services themselves ask for the money of a
   * confirmed order once more.
   */
  lemma ContradictionChargesAgain(events: seq<Event>, id: nat, attemptId: nat, i: Intent)
    requires StatusAfter(i) == FAILED
    requires var o := Run(NEW_ORDER, events);
             o.status == CONFIRMED && PaidAs(o, id) && o.payment.value.refundStatus == NO_REFUND &&
             HasAttempt(o.payment.value, attemptId)
    ensures var newest := Run(NEW_ORDER, events).nextId;
            var more := [SyncIntent(attemptId, i), StartCard, SyncIntent(newest, IntentSucceeded)];
            && PaidEntries(events + more, id) == PaidEntries(events, id) + 1
            && Collected(events + more) == Collected(events) + 1
            && PaidAs(Run(NEW_ORDER, events + more), id)
  {
    var o := Run(NEW_ORDER, events);
    var e1, e2, e3 := SyncIntent(attemptId, i), StartCard, SyncIntent(o.nextId, IntentSucceeded);
    RunsAreConsistent(events);
    ChargedAnew(o, e1, e2, e3);
    OneMore(events, e1, id);
    OneMore(events + [e1], e2, id);
    OneMore(events + [e1] + [e2], e3, id);
    assert events + [e1] + [e2] + [e3] == events + [e1, e2, e3];
  }

  lemma OneMore(events: seq<Event>, e: Event, id: nat)
    ensures Run(NEW_ORDER, events + [e]) == Step(Run(NEW_ORDER, events), e)
    ensures Collected(events + [e]) == Collected(events) + if Collects(Run(NEW_ORDER, events), e) then 1 else 0
    ensures PaidEntries(events + [e], id) ==
            PaidEntries(events, id) +
            if PaidAs(Step(Run(NEW_ORDER, events), e), id) && !PaidAs(Run(NEW_ORDER, events), id) then 1 else 0
  {
    assert (events + [e])[..|events|] == events;
  }

  lemma ChargedAnew(o: Order, e1: Event, e2: Event, e3: Event)
    requires Consistent(o) && o.status == CONFIRMED && o.payment.value.paymentStatus == PAID
    requires o.payment.value.refundStatus == NO_REFUND
    requires e1.SyncIntent? && StatusAfter(e1.intent) == FAILED && HasAttempt(o.payment.value, e1.attemptId)
    requires e2 == StartCard && e3 == SyncIntent(o.nextId, IntentSucceeded)
    ensures var o1 := Step(o, e1); var o2 := Step(o1, e2); var o3 := Step(o2, e3);
            && o1.payment.Some? && o2.payment.Some? && o3.payment.Some?
            && o1.payment.value.id == o2.payment.value.id == o3.payment.value.id == o.payment.value.id
            && o1.payment.value.paymentStatus == FAILED && o2.payment.value.paymentStatus == AWAITING
            && o3.payment.value.paymentStatus == PAID
            && !Collects(o, e1) && !Collects(o1, e2) && Collects(o2, e3)
  {
    var p := o.payment.value;
    var o1 := Step(o, e1);
    SyncKeepsConsistent(p, e1.attemptId, e1.intent, o.nextId);
    var o2 := Step(o1, e2);
    assert o2.payment.value.attempts[0] == Attempt(o.nextId, STARTED);
  }
}

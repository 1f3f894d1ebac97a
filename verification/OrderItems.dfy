/**
 * An order's lines and totals over its whole life: adding and removing items
 * (backend/src/domain/order/order.service.ts:587-744) between the transitions
 * and payments of the lifecycle, and the page's guards for it
 * (frontend/components/orders/order-detail-page.tsx:266-267, 310-338, 388-398).
 */
module OrderItems {
  import opened Wrappers
  import opened OrderTypes
  import opened OrderForm
  import opened Money
  import Lifecycle

  // billed is the payment record's amount, where there is one.
  datatype State = State(life: Lifecycle.Order, lines: seq<Line>, totals: Totals, billed: int, nextId: nat)

  // AddItem carries the product's price, if the organization has the product.
  datatype Event = Life(e: Lifecycle.Event) | AddItem(item: Item, price: Option<int>) | RemoveItem(id: nat)

  function Minus(a: Totals, b: Totals): Totals {
    Totals(a.subtotal - b.subtotal, a.tax - b.tax, a.discount - b.discount, a.total - b.total)
  }

  predicate OnOrder(lines: seq<Line>, productId: string) {
    exists k :: 0 <= k < |lines| && lines[k].productId == productId
  }

  predicate HasLine(lines: seq<Line>, id: nat) {
    exists k :: 0 <= k < |lines| && lines[k].id == id
  }

  function LineWith(lines: seq<Line>, id: nat): (line: Line)
    requires HasLine(lines, id)
    ensures line.id == id && line in lines
  {
    if lines[|lines| - 1].id == id then lines[|lines| - 1] else LineWith(lines[..|lines| - 1], id)
  }

  function Without(lines: seq<Line>, id: nat): seq<Line>
    requires HasLine(lines, id)
  {
    if lines[|lines| - 1].id == id then lines[..|lines| - 1]
    else Without(lines[..|lines| - 1], id) + [lines[|lines| - 1]]
  }

  predicate Accepts(s: State, e: Event) {
    match e
    case Life(_) => true
    case AddItem(item, price) =>
      && s.life.status == PENDING && price.Some? && !OnOrder(s.lines, item.productId)
      && Fault(item, price.value) == None
    case RemoveItem(id) => HasLine(s.lines, id) && |s.lines| > 1
  }

  // A payment record is created with the order's total of that moment.
  function Billed(s: State, after: Lifecycle.Order): int {
    if s.life.payment.None? && after.payment.Some? then s.totals.total else s.billed
  }

  function Step(s: State, e: Event): State {
    if !Accepts(s, e) then s
    else
      match e
      case Life(event) =>
        var after := Lifecycle.Step(s.life, event);
        s.(life := after, billed := Billed(s, after))
      case AddItem(item, price) =>
        var line := LineFor(item, price.value, s.nextId);
        s.(lines := s.lines + [line], totals := Plus(s.totals, line.amounts), nextId := s.nextId + 1)
      case RemoveItem(id) =>
        s.(lines := Without(s.lines, id), totals := Minus(s.totals, LineWith(s.lines, id).amounts))
  }

  function Run(s: State, events: seq<Event>): State {
    if events == [] then s else Step(Run(s, events[..|events| - 1]), events[|events| - 1])
  }

  // ---- Totals -------------------------------------------------------------------------------

  predicate SoundLine(line: Line) {
    && line.qty >= 1 && line.amounts.subtotal == line.qty * line.unitPrice
    && 0 <= line.amounts.discount <= line.amounts.subtotal && line.amounts.tax >= 0
    && line.amounts.total == line.amounts.subtotal - line.amounts.discount + line.amounts.tax
  }

  predicate SoundLines(lines: seq<Line>, nextId: nat) {
    && (forall k :: 0 <= k < |lines| ==> SoundLine(lines[k]) && lines[k].id < nextId)
    && (forall j, k :: 0 <= j < k < |lines| ==> lines[j].id != lines[k].id)
  }

  // The stored totals are the sums over the lines, of which there is at least one.
  predicate Exact(s: State) {
    |s.lines| >= 1 && SoundLines(s.lines, s.nextId) && s.totals == TotalsOf(s.lines)
  }

  lemma ShorterHasLine(lines: seq<Line>, id: nat)
    requires HasLine(lines, id) && lines[|lines| - 1].id != id
    ensures HasLine(lines[..|lines| - 1], id)
  {
  }

  // Removing a line takes its amounts off the totals and nothing else from the order.
  lemma {:induction false} RemoveLine(lines: seq<Line>, id: nat)
    requires HasLine(lines, id)
    ensures TotalsOf(Without(lines, id)) == Minus(TotalsOf(lines), LineWith(lines, id).amounts)
    ensures |Without(lines, id)| == |lines| - 1
  {
    var n := |lines| - 1;
    if lines[n].id != id {
      ShorterHasLine(lines, id);
      RemoveLine(lines[..n], id);
      TotalsOfOneMore(Without(lines[..n], id), lines[n]);
    }
  }

  // The remaining lines are the others, in order.
  lemma {:induction false} RemainingLines(lines: seq<Line>, id: nat) returns (k: nat)
    requires HasLine(lines, id)
    ensures k < |lines| && lines[k].id == id && lines[k] == LineWith(lines, id)
    ensures Without(lines, id) == lines[..k] + lines[k + 1..]
  {
    var n := |lines| - 1;
    k := n;
    if lines[n].id == id {
      assert lines[..n] + lines[n + 1..] == lines[..n];
    } else {
      ShorterHasLine(lines, id);
      k := RemainingLines(lines[..n], id);
      LastBehind(lines, lines[..n], k);
    }
  }

  lemma LastBehind(lines: seq<Line>, before: seq<Line>, k: nat)
    requires k < |before| && |lines| == |before| + 1 && before == lines[..|before|]
    ensures before[..k] + before[k + 1..] + [lines[|before|]] == lines[..k] + lines[k + 1..]
    ensures lines[k] == before[k]
  {
  }

  lemma RemovalKeepsLines(lines: seq<Line>, k: nat, nextId: nat)
    requires k < |lines| && SoundLines(lines, nextId)
    ensures var rest := lines[..k] + lines[k + 1..];
            SoundLines(rest, nextId) && !HasLine(rest, lines[k].id) &&
            (DistinctProducts(lines) ==> DistinctProducts(rest))
  {
  }

  lemma LineIsSound(item: Item, price: int, id: nat)
    requires Fault(item, price) == None
    ensures SoundLine(LineFor(item, price, id))
  {
  }

  lemma StepKeepsExact(s: State, e: Event)
    requires Exact(s)
    ensures Exact(Step(s, e))
    ensures DistinctProducts(s.lines) ==> DistinctProducts(Step(s, e).lines)
  {
    if Accepts(s, e) {
      if e.AddItem? {
        LineIsSound(e.item, e.price.value, s.nextId);
        TotalsOfOneMore(s.lines, LineFor(e.item, e.price.value, s.nextId));
      } else if e.RemoveItem? {
        RemoveLine(s.lines, e.id);
        var k := RemainingLines(s.lines, e.id);
        RemovalKeepsLines(s.lines, k, s.nextId);
      }
    }
  }

  lemma {:induction false} TotalsAddUp(lines: seq<Line>, nextId: nat)
    requires SoundLines(lines, nextId)
    ensures var t := TotalsOf(lines);
            t.total == t.subtotal - t.discount + t.tax && 0 <= t.discount <= t.subtotal && t.tax >= 0 && t.total >= 0
  {
    if lines != [] {
      TotalsAddUp(lines[..|lines| - 1], nextId);
      assert SoundLine(lines[|lines| - 1]);
    }
  }

  /**
   * Over every run the stored totals are the sums over the lines, total is
   * subtotal - discount + tax and not negative, a line is left, and products
   * that were distinct stay distinct.
   */
  lemma {:induction false} TotalsStayExact(s: State, events: seq<Event>)
    requires Exact(s)
    ensures Exact(Run(s, events))
    ensures DistinctProducts(s.lines) ==> DistinctProducts(Run(s, events).lines)
    ensures var t := Run(s, events).totals; t.total == t.subtotal - t.discount + t.tax && t.total >= 0
  {
    if events != [] {
      TotalsStayExact(s, events[..|events| - 1]);
      StepKeepsExact(Run(s, events[..|events| - 1]), events[|events| - 1]);
    }
    TotalsAddUp(Run(s, events).lines, Run(s, events).nextId);
  }

  // A new order, as the service creates it.
  function NewOrder(totals: Totals, lines: seq<Line>): State {
    State(Lifecycle.NEW_ORDER, lines, totals, 0, |lines|)
  }

  lemma FormLineIsSound(l: FormLine, id: nat)
    requires LineAccepted(l)
    ensures SoundLine(LineFor(ItemOf(l), l.unitPriceCents, id))
  {
  }

  lemma CreatedLinesAreSound(form: seq<FormLine>, products: map<string, Product>, lines: seq<Line>)
    requires FormAccepted(form) && PricesCurrent(form, products) && |lines| == |form|
    requires forall i :: 0 <= i < |form| ==>
               lines[i] == LineFor(Body(form)[i], products[form[i].productId].priceCents, i)
    ensures SoundLines(lines, |lines|) && DistinctProducts(lines)
  {
    forall i | 0 <= i < |form| ensures SoundLine(lines[i]) && lines[i].id == i {
      assert LineAccepted(form[i]);
      FormLineIsSound(form[i], i);
    }
    forall i, j | 0 <= i < j < |form| ensures lines[i].productId != lines[j].productId {
      AcceptedLinesDiffer(form, i, j);
    }
  }

  /** An order created from an accepted form starts out exact, with distinct products. */
  lemma {:induction false} CreatedOrderIsExact(form: seq<FormLine>, products: map<string, Product>, lines: seq<Line>)
    requires FormAccepted(form) && PricesCurrent(form, products) && |lines| == |form|
    requires forall i :: 0 <= i < |form| ==>
               lines[i] == LineFor(Body(form)[i], products[form[i].productId].priceCents, i)
    ensures Exact(NewOrder(TotalsOf(lines), lines)) && DistinctProducts(lines)
    ensures NewOrder(TotalsOf(lines), lines).totals == Shown(form)
  {
    CreatedLinesAreSound(form, products, lines);
    FormOrderIsCreated(form, products, lines);
  }

  // validateNewItem has no objection.
  predicate ValidNewItem(s: State, l: FormLine) {
    && l.productId != "" && l.qty >= 1 && !OnOrder(s.lines, l.productId)
    && DollarsToCents(l.discountDollars) <= LineSubtotal(l)
  }

  /** On a pending order the page lets a product be added exactly when the service accepts it. */
  lemma NewItemOfferedIffAccepted(s: State, l: FormLine)
    requires s.life.status == PENDING && l.productId != ""
    ensures ValidNewItem(s, l) <==> Accepts(s, AddItem(ItemOf(l), Some(l.unitPriceCents)))
  {
  }

  /** Removing takes exactly the named line, unless it is the last one left. */
  lemma RemovesUnlessLast(s: State, id: nat) returns (k: nat)
    requires HasLine(s.lines, id)
    ensures k < |s.lines| && s.lines[k].id == id
    ensures Step(s, RemoveItem(id)).lines ==
            if |s.lines| == 1 then s.lines else s.lines[..k] + s.lines[k + 1..]
  {
    k := RemainingLines(s.lines, id);
  }

  /** Adding puts one line behind the others: the item at the product's price, under a new id. */
  lemma AddsLine(s: State, item: Item, price: Option<int>)
    ensures var s' := Step(s, AddItem(item, price));
            if s.life.status == PENDING && price.Some? && Fault(item, price.value) == None &&
               forall k :: 0 <= k < |s.lines| ==> s.lines[k].productId != item.productId
            then
              && |s'.lines| == |s.lines| + 1 && s'.lines[..|s.lines|] == s.lines && s'.nextId == s.nextId + 1
              && var l := s'.lines[|s.lines|];
                 && l.id == s.nextId && l.productId == item.productId && l.qty == item.qty
                 && l.unitPrice == price.value && l.amounts.subtotal == item.qty * price.value
                 && l.amounts.discount == item.discountCents && l.amounts.tax == item.taxCents
            else s' == s
  {
  }

  /** What a payment record asks for is the order's total when the record was made, and stays that. */
  lemma BilledAtCreation(s: State, e: Event)
    ensures var s' := Step(s, e);
            && (s.life.payment.None? && s'.life.payment.Some? ==> s'.billed == s.totals.total)
            && (s.life.payment.Some? ==> s'.billed == s.billed)
  {
  }

  // ---- The payment's amount ------------------------------------------------------------------

  // The payment record asks for the order's total.
  predicate FullyBilled(s: State) {
    s.life.payment.Some? ==> s.billed == s.totals.total
  }

  /**
   * A step leaves a payment asking for something else than the order's total
   * exactly when it removes a line that was not free from an order that has a
   * payment: the service does not check the order's status there.
   */
  lemma BilledUntil(s: State, e: Event)
    requires Exact(s) && FullyBilled(s) && Lifecycle.Consistent(s.life)
    ensures FullyBilled(Step(s, e)) <==>
            !(e.RemoveItem? && Accepts(s, e) && s.life.payment.Some? && LineWith(s.lines, e.id).amounts.total != 0)
  {
  }

  /** Such a step is open to every new order with two lines, one of them not free: confirm it, then remove that line. */
  lemma CanMisbill(lines: seq<Line>, id: nat)
    requires Exact(NewOrder(TotalsOf(lines), lines)) && |lines| > 1
    requires HasLine(lines, id) && LineWith(lines, id).amounts.total != 0
    ensures !FullyBilled(Run(NewOrder(TotalsOf(lines), lines), [Life(Lifecycle.Confirm), RemoveItem(id)]))
  {
    var s, events := NewOrder(TotalsOf(lines), lines), [Life(Lifecycle.Confirm), RemoveItem(id)];
    assert events[..1] == [Life(Lifecycle.Confirm)] && events[..1][..0] == [];
    var confirmed := Step(s, Life(Lifecycle.Confirm));
    assert Run(s, events[..1]) == confirmed;
    BilledUntil(confirmed, RemoveItem(id));
  }

  // The page only lets items be removed from pending orders with more than one item.
  predicate CanRemoveItems(s: State) {
    s.life.status == PENDING && |s.lines| > 1
  }

  /** On a pending order the page offers to remove a line exactly when the service does it: while another is left. */
  lemma RemovalOfferedIffAccepted(s: State, id: nat)
    requires s.life.status == PENDING && HasLine(s.lines, id)
    ensures CanRemoveItems(s) <==> Accepts(s, RemoveItem(id))
    ensures CanRemoveItems(s) <==> |s.lines| != 1
  {
  }

  predicate Offered(s: State, e: Event) {
    e.RemoveItem? ==> CanRemoveItems(s)
  }

  predicate PageRun(s: State, events: seq<Event>) {
    events == [] ||
    (PageRun(s, events[..|events| - 1]) && Offered(Run(s, events[..|events| - 1]), events[|events| - 1]))
  }

  predicate LifeConsistent(s: State) {
    Lifecycle.Consistent(s.life)
  }

  lemma StepKeepsLife(s: State, e: Event)
    requires LifeConsistent(s)
    ensures LifeConsistent(Step(s, e))
  {
    if e.Life? { Lifecycle.StepKeepsConsistent(s.life, e.e); }
  }

  /** Through the page a payment always asks for exactly what the order comes to. */
  lemma {:induction false} PageRunsBillTotals(s: State, events: seq<Event>)
    requires Exact(s) && FullyBilled(s) && LifeConsistent(s) && PageRun(s, events)
    ensures FullyBilled(Run(s, events)) && Exact(Run(s, events)) && LifeConsistent(Run(s, events))
  {
    if events != [] {
      var before, e := events[..|events| - 1], events[|events| - 1];
      PageRunsBillTotals(s, before);
      StepKeepsExact(Run(s, before), e);
      StepKeepsLife(Run(s, before), e);
      BilledUntil(Run(s, before), e);
    }
  }
}

/**
 * Creating an order: the form's validation and folds
 * (frontend/components/orders/create-order-form.tsx:45-123, 192-204) and the
 * service's loop over the items (backend/src/domain/order/order.service.ts:62-213).
 */
module OrderForm {
  import opened Wrappers
  import opened Money
  import opened Arithmetic

  datatype FormLine = FormLine(
    productId: string, qty: int, unitPriceCents: int, discountDollars: string, taxDollars: string)

  function LineSubtotal(l: FormLine): int { l.qty * l.unitPriceCents }

  function GetLineTotal(l: FormLine): int {
    LineSubtotal(l) - DollarsToCents(l.discountDollars) + DollarsToCents(l.taxDollars)
  }

  predicate LineAccepted(l: FormLine) {
    && l.productId != "" && l.unitPriceCents >= 0 && l.qty >= 1
    && DollarsToCents(l.discountDollars) <= LineSubtotal(l)
  }

  // The line names a product that an earlier line names already.
  predicate Repeats(lines: seq<FormLine>, i: nat)
    requires i < |lines|
  {
    lines[i].productId != "" && exists j :: 0 <= j < i && lines[j].productId == lines[i].productId
  }

  predicate Ascending(xs: seq<nat>) {
    forall i, j :: 0 <= i < j < |xs| ==> xs[i] < xs[j]
  }

  /** The check with the Set of seen products flags exactly the repeating lines, in order. */
  method FlagDuplicates(lines: seq<FormLine>) returns (issues: seq<nat>)
    ensures forall i :: i in issues <==> 0 <= i < |lines| && Repeats(lines, i)
    ensures Ascending(issues)
  {
    issues := [];
    var seen: set<string> := {};
    for index := 0 to |lines|
      invariant forall i :: i in issues <==> 0 <= i < index && Repeats(lines, i)
      invariant Ascending(issues) && forall k :: 0 <= k < |issues| ==> issues[k] < index
      invariant forall p :: p in seen <==> p != "" && exists j :: 0 <= j < index && lines[j].productId == p
    {
      if lines[index].productId != "" {
        if lines[index].productId in seen {
          issues := issues + [index];
        }
        seen := seen + {lines[index].productId};
      }
    }
  }

  // The form submits.
  predicate FormAccepted(lines: seq<FormLine>) {
    && |lines| >= 1
    && (forall i :: 0 <= i < |lines| ==> LineAccepted(lines[i]))
    && (forall i :: 0 <= i < |lines| ==> !Repeats(lines, i))
  }

  lemma AcceptedLinesDiffer(lines: seq<FormLine>, i: nat, j: nat)
    requires FormAccepted(lines) && i < j < |lines|
    ensures lines[i].productId != lines[j].productId
  {
    assert LineAccepted(lines[j]) && !Repeats(lines, j);
  }

  function Each(lines: seq<FormLine>, amount: FormLine -> int): seq<int> {
    seq(|lines|, i requires 0 <= i < |lines| => amount(lines[i]))
  }

  function OrderSubtotal(lines: seq<FormLine>): int { Sum(Each(lines, LineSubtotal)) }

  function OrderDiscount(lines: seq<FormLine>): int {
    Sum(Each(lines, (l: FormLine) => DollarsToCents(l.discountDollars)))
  }

  function OrderTaxes(lines: seq<FormLine>): int { Sum(Each(lines, (l: FormLine) => DollarsToCents(l.taxDollars))) }

  function OrderTotal(lines: seq<FormLine>): int {
    OrderSubtotal(lines) - OrderDiscount(lines) + OrderTaxes(lines)
  }

  lemma EachSnoc(lines: seq<FormLine>, amount: FormLine -> int)
    requires lines != []
    ensures Sum(Each(lines, amount)) == Sum(Each(lines[..|lines| - 1], amount)) + amount(lines[|lines| - 1])
  {
    assert Each(lines, amount)[..|lines| - 1] == Each(lines[..|lines| - 1], amount);
  }

  lemma FoldsSnoc(lines: seq<FormLine>)
    requires lines != []
    ensures var before, last := lines[..|lines| - 1], lines[|lines| - 1];
            && OrderSubtotal(lines) == OrderSubtotal(before) + LineSubtotal(last)
            && OrderDiscount(lines) == OrderDiscount(before) + DollarsToCents(last.discountDollars)
            && OrderTaxes(lines) == OrderTaxes(before) + DollarsToCents(last.taxDollars)
            && Sum(Each(lines, GetLineTotal)) == Sum(Each(before, GetLineTotal)) + GetLineTotal(last)
  {
    EachSnoc(lines, LineSubtotal);
    EachSnoc(lines, (l: FormLine) => DollarsToCents(l.discountDollars));
    EachSnoc(lines, (l: FormLine) => DollarsToCents(l.taxDollars));
    EachSnoc(lines, GetLineTotal);
  }

  lemma SubtotalNonNegative(l: FormLine)
    requires LineAccepted(l)
    ensures LineSubtotal(l) >= 0 && GetLineTotal(l) >= 0
  {
  }

  /** The lines' totals add up to the order's total, which is not negative. */
  lemma {:induction false} FormTotalsAgree(lines: seq<FormLine>)
    requires forall i :: 0 <= i < |lines| ==> LineAccepted(lines[i])
    ensures Sum(Each(lines, GetLineTotal)) == OrderTotal(lines)
    ensures 0 <= OrderDiscount(lines) <= OrderSubtotal(lines) && OrderTaxes(lines) >= 0 && OrderTotal(lines) >= 0
  {
    if lines != [] {
      FormTotalsAgree(lines[..|lines| - 1]);
      FoldsSnoc(lines);
      SubtotalNonNegative(lines[|lines| - 1]);
    }
  }

  // ---- The service -----------------------------------------------------------------------

  datatype Item = Item(productId: string, qty: int, discountCents: int, taxCents: int)

  datatype Product = Product(priceCents: int, active: bool)

  datatype Totals = Totals(subtotal: int, tax: int, discount: int, total: int)

  datatype Line = Line(id: nat, productId: string, qty: int, unitPrice: int, amounts: Totals)

  datatype Reason = EmptyOrder | UnknownProduct | BadQuantity | NegativeCents | DiscountTooLarge

  datatype Creation = Created(totals: Totals, lines: seq<Line>) | Refused(reason: Reason)

  const NOTHING: Totals := Totals(0, 0, 0, 0)

  function Plus(a: Totals, b: Totals): Totals {
    Totals(a.subtotal + b.subtotal, a.tax + b.tax, a.discount + b.discount, a.total + b.total)
  }

  // What an item comes to at a price.
  function AmountsAt(item: Item, price: int): Totals {
    Totals(item.qty * price, item.taxCents, item.discountCents, item.qty * price - item.discountCents + item.taxCents)
  }

  function TotalsOf(lines: seq<Line>): Totals {
    if lines == [] then NOTHING else Plus(TotalsOf(lines[..|lines| - 1]), lines[|lines| - 1].amounts)
  }

  // What is wrong with an item, in the order the service looks.
  function Fault(item: Item, price: int): Option<Reason> {
    if item.qty <= 0 then Some(BadQuantity)
    else if item.discountCents < 0 || item.taxCents < 0 then Some(NegativeCents)
    else if item.discountCents > item.qty * price then Some(DiscountTooLarge)
    else None
  }

  /** Which fault an item is refused for. */
  lemma FaultIs(item: Item, price: int)
    ensures Fault(item, price) == Some(BadQuantity) <==> item.qty <= 0
    ensures Fault(item, price) == Some(NegativeCents) <==>
            item.qty > 0 && (item.discountCents < 0 || item.taxCents < 0)
    ensures Fault(item, price) == Some(DiscountTooLarge) <==>
            item.qty > 0 && item.discountCents >= 0 && item.taxCents >= 0 && item.discountCents > item.qty * price
    ensures Fault(item, price) == None <==>
            item.qty > 0 && 0 <= item.discountCents <= item.qty * price && item.taxCents >= 0
  {
  }

  predicate Sold(products: map<string, Product>, productId: string) {
    productId in products && products[productId].active
  }

  // Unknown to the organization, or no longer active.
  ghost predicate NotOnSale(products: map<string, Product>, productId: string) {
    productId !in products || !products[productId].active
  }

  predicate AllSold(items: seq<Item>, products: map<string, Product>) {
    forall i :: 0 <= i < |items| ==> Sold(products, items[i].productId)
  }

  function LineFor(item: Item, price: int, id: nat): Line {
    Line(id, item.productId, item.qty, price, AmountsAt(item, price))
  }

  // The first faulty item's fault.
  function FirstFault(items: seq<Item>, products: map<string, Product>): Option<Reason>
    requires AllSold(items, products)
  {
    if items == [] then None
    else
      var before := FirstFault(items[..|items| - 1], products);
      if before.Some? then before
      else Fault(items[|items| - 1], products[items[|items| - 1].productId].priceCents)
  }

  lemma {:induction false} FaultStays(items: seq<Item>, products: map<string, Product>, n: nat)
    requires AllSold(items, products) && n <= |items| && FirstFault(items[..n], products).Some?
    ensures FirstFault(items, products) == FirstFault(items[..n], products)
    decreases |items|
  {
    if n == |items| {
      assert items[..n] == items;
    } else {
      assert items[..|items| - 1][..n] == items[..n];
      FaultStays(items[..|items| - 1], products, n);
    }
  }

  // The loop's next item decides, if it is faulty.
  lemma NextItem(items: seq<Item>, products: map<string, Product>, i: nat)
    requires AllSold(items, products) && i < |items| && FirstFault(items[..i], products) == None
    ensures var fault := Fault(items[i], products[items[i].productId].priceCents);
            FirstFault(items[..i + 1], products) == fault && (fault.Some? ==> FirstFault(items, products) == fault)
  {
    assert items[..i + 1][..i] == items[..i];
    if FirstFault(items[..i + 1], products).Some? { FaultStays(items, products, i + 1); }
  }

  lemma TotalsOfOneMore(lines: seq<Line>, line: Line)
    ensures TotalsOf(lines + [line]) == Plus(TotalsOf(lines), line.amounts)
  {
    assert (lines + [line])[..|lines|] == lines;
  }

  /** An order is created exactly when every item is in order, and its totals are the sums over its lines. */
  method CreateOrder(items: seq<Item>, products: map<string, Product>) returns (r: Creation)
    ensures items == [] ==> r == Refused(EmptyOrder)
    ensures r == Refused(UnknownProduct) <==>
            items != [] && exists i :: 0 <= i < |items| && NotOnSale(products, items[i].productId)
    ensures items != [] && AllSold(items, products) ==>
              var fault := FirstFault(items, products);
              if fault.Some? then r == Refused(fault.value)
              else
                && r.Created? && |r.lines| == |items| && r.totals == TotalsOf(r.lines)
                && forall i :: 0 <= i < |items| ==>
                     r.lines[i] == LineFor(items[i], products[items[i].productId].priceCents, i)
  {
    if |items| == 0 { return Refused(EmptyOrder); }
    if exists i :: 0 <= i < |items| && !Sold(products, items[i].productId) { return Refused(UnknownProduct); }
    assert AllSold(items, products);
    var lines: seq<Line>, totals := [], NOTHING;
    for i := 0 to |items|
      invariant |lines| == i && totals == TotalsOf(lines)
      invariant FirstFault(items[..i], products) == None
      invariant forall j :: 0 <= j < i ==>
                  lines[j] == LineFor(items[j], products[items[j].productId].priceCents, j)
    {
      var raw := items[i];
      var price := products[raw.productId].priceCents;
      NextItem(items, products, i);
      if raw.qty <= 0 { return Refused(BadQuantity); }
      if raw.discountCents < 0 || raw.taxCents < 0 { return Refused(NegativeCents); }
      var lineSubtotal := raw.qty * price;
      if raw.discountCents > lineSubtotal { return Refused(DiscountTooLarge); }
      var lineTotal := lineSubtotal - raw.discountCents + raw.taxCents;
      var amounts := Totals(lineSubtotal, raw.taxCents, raw.discountCents, lineTotal);
      TotalsOfOneMore(lines, Line(i, raw.productId, raw.qty, price, amounts));
      lines := lines + [Line(i, raw.productId, raw.qty, price, amounts)];
      totals := Plus(totals, amounts);
    }
    assert items[..|items|] == items;
    r := Created(totals, lines);
  }

  // ---- The form's order at the service -------------------------------------------------------

  function ItemOf(l: FormLine): Item {
    Item(l.productId, l.qty, DollarsToCents(l.discountDollars), DollarsToCents(l.taxDollars))
  }

  function Body(lines: seq<FormLine>): seq<Item> {
    seq(|lines|, i requires 0 <= i < |lines| =>
      ItemOf(lines[i]))
  }

  // The form shows the prices the service has.
  predicate PricesCurrent(lines: seq<FormLine>, products: map<string, Product>) {
    forall i :: 0 <= i < |lines| ==>
      Sold(products, lines[i].productId) && products[lines[i].productId].priceCents == lines[i].unitPriceCents
  }

  lemma {:induction false} AcceptedFormHasNoFault(lines: seq<FormLine>, products: map<string, Product>)
    requires PricesCurrent(lines, products) && forall i :: 0 <= i < |lines| ==> LineAccepted(lines[i])
    ensures AllSold(Body(lines), products) && FirstFault(Body(lines), products) == None
  {
    if lines != [] {
      var n := |lines| - 1;
      AcceptedFormHasNoFault(lines[..n], products);
      assert Body(lines)[..n] == Body(lines[..n]);
      assert LineAccepted(lines[n]) && Sold(products, lines[n].productId);
    }
  }

  // The totals the form shows.
  function Shown(lines: seq<FormLine>): Totals {
    Totals(OrderSubtotal(lines), OrderTaxes(lines), OrderDiscount(lines), OrderTotal(lines))
  }

  function ShownLine(l: FormLine): Totals {
    Totals(LineSubtotal(l), DollarsToCents(l.taxDollars), DollarsToCents(l.discountDollars), GetLineTotal(l))
  }

  lemma ShownSnoc(lines: seq<FormLine>)
    requires lines != []
    ensures Shown(lines) == Plus(Shown(lines[..|lines| - 1]), ShownLine(lines[|lines| - 1]))
  {
    FoldsSnoc(lines);
  }

  // The service's line for what the form sends.
  predicate CreatedFrom(line: Line, l: FormLine) {
    line.productId == l.productId && line.qty == l.qty && line.amounts ==
      AmountsAt(ItemOf(l), l.unitPriceCents)
  }

  lemma {:induction false} CreatedTotals(lines: seq<FormLine>, created: seq<Line>)
    requires |created| == |lines| && forall i :: 0 <= i < |lines| ==> CreatedFrom(created[i], lines[i])
    ensures TotalsOf(created) == Shown(lines)
  {
    if lines != [] {
      var n := |lines| - 1;
      CreatedTotals(lines[..n], created[..n]);
      ShownSnoc(lines);
      assert CreatedFrom(created[n], lines[n]);
    }
  }

  /**
   * What the form accepts the service creates, with the totals the form showed,
   * when the form's prices are current.
   */
  lemma FormOrderIsCreated(lines: seq<FormLine>, products: map<string, Product>, created: seq<Line>)
    requires FormAccepted(lines) && PricesCurrent(lines, products) && |created| == |lines|
    requires forall i :: 0 <= i < |lines| ==>
               created[i] == LineFor(Body(lines)[i], products[lines[i].productId].priceCents, i)
    ensures FirstFault(Body(lines), products) == None
    ensures TotalsOf(created) == Shown(lines)
  {
    AcceptedFormHasNoFault(lines, products);
    forall i | 0 <= i < |lines| ensures CreatedFrom(created[i], lines[i]) {
    }
    CreatedTotals(lines, created);
  }

  predicate DistinctItems(items: seq<Item>) {
    forall i, j :: 0 <= i < j < |items| ==> items[i].productId != items[j].productId
  }

  predicate DistinctProducts(lines: seq<Line>) {
    forall j, k :: 0 <= j < k < |lines| ==> lines[j].productId != lines[k].productId
  }

  /** No item is refused because of another one: an order is free of faults exactly when each item is by itself. */
  lemma {:induction false} EachItemDecides(items: seq<Item>, products: map<string, Product>)
    requires AllSold(items, products)
    ensures FirstFault(items, products) == None <==>
            forall i :: 0 <= i < |items| ==> Fault(items[i], products[items[i].productId].priceCents) == None
  {
    if items != [] {
      var n := |items| - 1;
      EachItemDecides(items[..n], products);
      if FirstFault(items[..n], products).Some? {
        FaultStays(items, products, n);
      }
    }
  }

  /**
   * So the service lets products repeat, which only the form does not: the
   * products of a created order are distinct exactly when the items' are.
   */
  lemma ProductsRepeatIff(items: seq<Item>, products: map<string, Product>, created: seq<Line>)
    requires AllSold(items, products) && |created| == |items|
    requires forall i :: 0 <= i < |items| ==>
               created[i] == LineFor(items[i], products[items[i].productId].priceCents, i)
    ensures DistinctProducts(created) <==> DistinctItems(items)
  {
    forall i, j | 0 <= i < j < |items|
      ensures created[i].productId == created[j].productId <==> items[i].productId == items[j].productId
    {
      assert created[i].productId == items[i].productId && created[j].productId == items[j].productId;
    }
  }
}

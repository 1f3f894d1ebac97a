/**
 * What one turn of the seed's order loop generates, and the rows it pushes
 * (backend/prisma/seed.demo.ts:1253-1323, 2478-2540).
 */
module SeedRows {
  import opened Arithmetic
  import opened Wrappers
  import opened Inserts = BulkInsert
  import opened OrderTypes
  import opened PaymentBundles
  import opened SeedLog
  import OrderTax

  datatype Product = Product(id: nat, name: string, sku: string, priceCents: int)

  datatype Item = Item(
    id: nat, orderId: nat, product: Product, organizationId: nat, qty: int, lineSubtotal: int, lineTax: int,
    lineTotal: int)

  datatype Order = Order(
    id: nat, organizationId: nat, customerId: Option<nat>, locationId: nat, status: OrderStatus, subtotal: int,
    tax: int, total: int, createdAt: int, updatedAt: int, placedAt: Option<int>, cancelledAt: Option<int>)

  // One turn of the order loop.
  datatype Generated = Generated(order: Order, items: seq<Item>, bundle: Bundle)

  function RefCell(o: Option<nat>): Cell { if o.Some? then Ref(o.value) else Null }

  function TimeCell(o: Option<int>): Cell { if o.Some? then Time(o.value) else Null }

  function TextCell(o: Option<string>): Cell { if o.Some? then Text(o.value) else Null }

  function StatusName(s: OrderStatus): string {
    match s
    case PENDING => "PENDING"
    case CONFIRMED => "CONFIRMED"
    case FULFILLED => "FULFILLED"
    case CANCELLED => "CANCELLED"
  }

  function MethodName(m: Method): string {
    match m
    case CARD => "CARD"
    case CASH => "CASH"
  }

  function PaymentName(p: PaymentStatus): string {
    match p
    case UNPAID => "UNPAID"
    case AWAITING => "PENDING"
    case FAILED => "FAILED"
    case PAID => "PAID"
  }

  function RefundName(r: RefundStatus): string {
    match r
    case NO_REFUND => "NONE"
    case REQUESTED => "REQUESTED"
    case IN_PROGRESS => "PENDING"
    case REFUND_FAILED => "FAILED"
    case REFUNDED => "REFUNDED"
  }

  function AttemptName(a: AttemptStatus): string {
    match a
    case STARTED => "PENDING"
    case REQUIRES_ACTION => "REQUIRES_ACTION"
    case SUCCEEDED => "SUCCEEDED"
    case ATTEMPT_FAILED => "FAILED"
    case CANCELED => "CANCELED"
  }

  function OrderCells(o: Order): seq<Cell> {
    [Ref(o.id), Ref(o.organizationId), RefCell(o.customerId), Ref(o.locationId), Text(StatusName(o.status)),
     Num(o.subtotal), Num(o.tax), Num(0), Num(o.total), Time(o.createdAt), Time(o.updatedAt),
     TimeCell(o.placedAt), TimeCell(o.cancelledAt)]
  }

  function ItemCells(i: Item): seq<Cell> {
    [Ref(i.id), Ref(i.orderId), Ref(i.product.id), Ref(i.organizationId), Text(i.product.name), Text(i.product.sku),
     Num(i.qty), Num(i.product.priceCents), Num(i.lineSubtotal), Num(0), Num(i.lineTax), Num(i.lineTotal)]
  }

  function PaymentCells(p: PaymentRow): seq<Cell> {
    [Ref(p.id), Ref(p.organizationId), Ref(p.orderId), if p.via.Some? then Text(MethodName(p.via.value)) else Null,
     Text(PaymentName(p.paymentStatus)), Text(RefundName(p.refundStatus)), Num(p.amountCents), Text("CAD"),
     RefCell(p.stripeRefundId), TimeCell(p.paidAt), TimeCell(p.refundRequestedAt), TimeCell(p.refundedAt),
     TimeCell(p.refundFailedAt), TextCell(p.refundReason), TextCell(p.lastPaymentFailure),
     TextCell(p.lastRefundFailure), Time(p.createdAt), Time(p.updatedAt)]
  }

  function AttemptCells(t: AttemptRow): seq<Cell> {
    [Ref(t.id), Ref(t.paymentId), Ref(t.intentId), Text(AttemptName(t.status)), Secret(t.intentId),
     Num(t.amountCents), Text("CAD"), TextCell(t.lastFailure), Time(t.createdAt), Time(t.updatedAt)]
  }

  function ItemRows(items: seq<Item>): seq<seq<Cell>> {
    seq(|items|, i requires 0 <= i < |items| => ItemCells(items[i]))
  }

  function PaymentRows(b: Bundle): seq<seq<Cell>> {
    if b.payment.Some? then [PaymentCells(b.payment.value)] else []
  }

  function AttemptRows(attempts: seq<AttemptRow>): seq<seq<Cell>> {
    seq(|attempts|, i requires 0 <= i < |attempts| => AttemptCells(attempts[i]))
  }

  // The rows a turn pushes.
  function RowsFor(g: Generated): TurnRows {
    TurnRows(OrderCells(g.order), ItemRows(g.items), PaymentRows(g.bundle), AttemptRows(g.bundle.attempts))
  }

  function RowsForAll(gen: seq<Generated>): seq<TurnRows> {
    seq(|gen|, i requires 0 <= i < |gen| => RowsFor(gen[i]))
  }

  // The order's rows refer to one another.
  ghost predicate Joined(g: Generated) {
    && (forall i :: 0 <= i < |g.items| ==> g.items[i].orderId == g.order.id)
    && (g.bundle.payment.Some? ==> g.bundle.payment.value.orderId == g.order.id)
    && (g.bundle.attempts != [] ==> g.bundle.payment.Some?)
    && (forall i :: 0 <= i < |g.bundle.attempts| ==> g.bundle.attempts[i].paymentId == g.bundle.payment.value.id)
  }

  lemma RowWidths(g: Generated, t: Table)
    ensures Rectangular(RowsFor(g).Of(t), Width(t))
  {
  }

  lemma {:induction false} OwnKeysMet(g: Generated, t: Table)
    requires Joined(g) && Parent(t).Some?
    ensures KeysMet(RowsFor(g).Of(Parent(t).value), RowsFor(g).Of(t), ParentColumn(t))
  {
    var parents, rows := RowsFor(g).Of(Parent(t).value), RowsFor(g).Of(t);
    forall i | 0 <= i < |rows| ensures |rows[i]| > ParentColumn(t) && HasKey(parents, rows[i][ParentColumn(t)]) {
      assert parents[0][0] == rows[i][ParentColumn(t)];
    }
  }

  lemma JoinedFits(g: Generated)
    requires Joined(g)
    ensures Fit(RowsFor(g))
  {
    forall t: Table {:trigger Width(t)} ensures Rectangular(RowsFor(g).Of(t), Width(t)) {
      RowWidths(g, t);
    }
    forall t: Table {:trigger Parent(t)} | Parent(t).Some?
      ensures KeysMet(RowsFor(g).Of(Parent(t).value), RowsFor(g).Of(t), ParentColumn(t))
    {
      OwnKeysMet(g, t);
    }
  }

  // The ids of a turn lie between the order's own id and hi.
  ghost predicate IdsWithin(g: Generated, hi: nat) {
    match g
    case Generated(order, items, bundle) =>
      && order.id < hi && FreshIds(bundle, order.id, hi) && |bundle.attempts| <= 1
      && (forall i :: 0 <= i < |items| ==> order.id <= items[i].id < hi)
      && (forall i, j :: 0 <= i < j < |items| ==> items[i].id != items[j].id)
  }

  lemma TableIdsAreOwn(g: Generated, t: Table, hi: nat)
    requires Joined(g) && IdsWithin(g, hi)
    ensures DistinctKeys(RowsFor(g).Of(t), KeyColumn(t), g.order.id, hi)
  {
  }

  lemma IdsAreOwn(g: Generated, hi: nat)
    requires Joined(g) && IdsWithin(g, hi)
    ensures OwnIds(RowsFor(g), g.order.id, hi)
  {
    forall t: Table {:trigger KeyColumn(t)}
      ensures DistinctKeys(RowsFor(g).Of(t), KeyColumn(t), g.order.id, hi)
    {
      TableIdsAreOwn(g, t, hi);
    }
  }

  // ---- Money ---------------------------------------------------------------------------------

  function Subtotals(items: seq<Item>): seq<int> {
    seq(|items|, i requires 0 <= i < |items| => items[i].lineSubtotal)
  }

  function Taxes(items: seq<Item>): seq<int> {
    seq(|items|, i requires 0 <= i < |items| => items[i].lineTax)
  }

  // Line and order amounts are computed from the catalogue's prices.
  ghost predicate Priced(g: Generated, products: seq<Product>) {
    && (forall i :: 0 <= i < |g.items| ==>
          var item := g.items[i];
          && item.product in products && 1 <= item.qty <= 5
          && item.lineSubtotal == item.qty * item.product.priceCents
          && item.lineTax == OrderTax.TaxOf(item.lineSubtotal)
          && item.lineTotal == item.lineSubtotal + item.lineTax)
    && g.order.subtotal == Sum(Subtotals(g.items))
    && g.order.tax == OrderTax.TaxOf(g.order.subtotal)
    && g.order.total == g.order.subtotal + g.order.tax
    && (g.bundle.payment.Some? ==> g.bundle.payment.value.amountCents == g.order.total)
  }

  // 25 pieces at this price still stay below the bound of the tax arithmetic.
  const MAX_PRICE: int := 21651921285438

  lemma LineBound(qty: int, price: int, bound: int)
    requires 1 <= qty <= 5 && 0 <= price <= bound
    ensures 0 <= qty * price <= 5 * bound
  {
  }

  lemma {:induction false} SumBounds(xs: seq<int>, bound: nat)
    requires forall i :: 0 <= i < |xs| ==> 0 <= xs[i] <= bound
    ensures 0 <= Sum(xs) <= |xs| * bound
  {
    if xs != [] {
      SumBounds(xs[..|xs| - 1], bound);
      OneMore(|xs| - 1, bound);
    }
  }

  lemma SmallLines(g: Generated, products: seq<Product>, bound: int)
    requires Priced(g, products) && 1 <= |g.items| <= 5 && bound == MAX_PRICE
    requires forall i :: 0 <= i < |products| ==> 0 <= products[i].priceCents <= bound
    ensures forall i :: 0 <= i < |g.items| ==> 0 <= g.items[i].lineSubtotal <= 5 * bound
    ensures 0 <= g.order.subtotal <= 25 * bound
  {
    forall i | 0 <= i < |g.items| ensures 0 <= g.items[i].lineSubtotal <= 5 * bound {
      LineBound(g.items[i].qty, g.items[i].product.priceCents, bound);
    }
    SumBounds(Subtotals(g.items), 5 * bound);
  }

  /**
   * Up to that price, an order's line totals add up to its total within three cents,
   * and a line or order tax is an integer nearest to 13 percent.
   */
  lemma SeedTaxDrift(g: Generated, products: seq<Product>)
    requires Priced(g, products) && 1 <= |g.items| <= 5
    requires forall i :: 0 <= i < |products| ==> 0 <= products[i].priceCents <= MAX_PRICE
    ensures -3 <= Sum(Taxes(g.items)) - g.order.tax <= 3
    ensures forall i :: 0 <= i < |g.items| ==> OrderTax.IsNearestTax(g.items[i].lineSubtotal, g.items[i].lineTax)
    ensures OrderTax.IsNearestTax(g.order.subtotal, g.order.tax) && g.order.total >= g.order.subtotal >= 0
  {
    SmallLines(g, products, MAX_PRICE);
    forall i | 0 <= i < |g.items|
      ensures OrderTax.IsNearestTax(g.items[i].lineSubtotal, g.items[i].lineTax)
    {
      OrderTax.TaxIsNearest(g.items[i].lineSubtotal);
    }
    OrderTax.TaxIsNearest(g.order.subtotal);
    OrderTax.TaxDrift(Subtotals(g.items), Taxes(g.items), g.order.tax);
  }
}

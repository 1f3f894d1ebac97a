/**
 * The seed's cells against its column names: every value is pushed at the
 * position of its own column (backend/prisma/seed.demo.ts:1269-1323, 2368-2468, 2500-2536).
 */
module SeedColumns {
  import opened OrderTypes
  import opened PaymentBundles
  import opened SeedLog
  import opened SeedRows

  // A row's values under their columns' names.
  function OrderRow(o: Order): seq<(string, Cell)> {
    [("id", Ref(o.id)), ("organizationId", Ref(o.organizationId)), ("customerId", RefCell(o.customerId)),
     ("locationId", Ref(o.locationId)), ("status", Text(StatusName(o.status))), ("subtotalCents", Num(o.subtotal)),
     ("taxCents", Num(o.tax)), ("discountCents", Num(0)), ("totalCents", Num(o.total)),
     ("createdAt", Time(o.createdAt)), ("updatedAt", Time(o.updatedAt)), ("placedAt", TimeCell(o.placedAt)),
     ("cancelledAt", TimeCell(o.cancelledAt))]
  }

  function ItemRow(i: Item): seq<(string, Cell)> {
    [("id", Ref(i.id)), ("orderId", Ref(i.orderId)), ("productId", Ref(i.product.id)),
     ("organizationId", Ref(i.organizationId)), ("productName", Text(i.product.name)), ("sku", Text(i.product.sku)),
     ("qty", Num(i.qty)), ("unitPriceCents", Num(i.product.priceCents)), ("lineSubtotalCents", Num(i.lineSubtotal)),
     ("discountCents", Num(0)), ("taxCents", Num(i.lineTax)), ("lineTotalCents", Num(i.lineTotal))]
  }

  function PaymentRowOf(p: PaymentRow): seq<(string, Cell)> {
    [("id", Ref(p.id)), ("organizationId", Ref(p.organizationId)), ("orderId", Ref(p.orderId)),
     ("method", if p.via.Some? then Text(MethodName(p.via.value)) else Null),
     ("paymentStatus", Text(PaymentName(p.paymentStatus))), ("refundStatus", Text(RefundName(p.refundStatus))),
     ("amountCents", Num(p.amountCents)), ("currencyCode", Text("CAD")),
     ("stripeRefundId", RefCell(p.stripeRefundId)), ("paidAt", TimeCell(p.paidAt)),
     ("refundRequestedAt", TimeCell(p.refundRequestedAt)), ("refundedAt", TimeCell(p.refundedAt)),
     ("refundFailedAt", TimeCell(p.refundFailedAt)), ("refundReason", TextCell(p.refundReason)),
     ("lastPaymentFailure", TextCell(p.lastPaymentFailure)), ("lastRefundFailure", TextCell(p.lastRefundFailure)),
     ("createdAt", Time(p.createdAt)), ("updatedAt", Time(p.updatedAt))]
  }

  function AttemptRowOf(t: AttemptRow): seq<(string, Cell)> {
    [("id", Ref(t.id)), ("paymentId", Ref(t.paymentId)), ("stripePaymentIntentId", Ref(t.intentId)),
     ("status", Text(AttemptName(t.status))), ("clientSecret", Secret(t.intentId)),
     ("amountCents", Num(t.amountCents)), ("currencyCode", Text("CAD")), ("lastFailure", TextCell(t.lastFailure)),
     ("createdAt", Time(t.createdAt)), ("updatedAt", Time(t.updatedAt))]
  }

  function Labelled(g: Generated, t: Table, row: nat): seq<(string, Cell)>
    requires row < |RowsFor(g).Of(t)|
  {
    match t
    case ORDERS => OrderRow(g.order)
    case ITEMS => ItemRow(g.items[row])
    case PAYMENTS => PaymentRowOf(g.bundle.payment.value)
    case ATTEMPTS => AttemptRowOf(g.bundle.attempts[row])
  }

  /** Every cell a turn pushes stands at the position of its own column. */
  lemma CellsStandInTheirColumns(g: Generated, t: Table, row: nat)
    requires row < |RowsFor(g).Of(t)|
    ensures var cells, labelled := RowsFor(g).Of(t)[row], Labelled(g, t, row);
            && |cells| == |Columns(t)| == |labelled|
            && forall k :: 0 <= k < |labelled| ==> labelled[k] == (Columns(t)[k], cells[k])
  {
    match t {
      case ORDERS => OrderCellsStand(g.order);
      case ITEMS => ItemCellsStand(g.items[row]);
      case PAYMENTS => PaymentCellsStand(g.bundle.payment.value);
      case ATTEMPTS => AttemptCellsStand(g.bundle.attempts[row]);
    }
  }

  lemma OrderCellsStand(o: Order)
    ensures |OrderCells(o)| == |Columns(ORDERS)| == |OrderRow(o)|
    ensures forall k :: 0 <= k < |OrderRow(o)| ==> OrderRow(o)[k] == (Columns(ORDERS)[k], OrderCells(o)[k])
  {
  }

  lemma ItemCellsStand(i: Item)
    ensures |ItemCells(i)| == |Columns(ITEMS)| == |ItemRow(i)|
    ensures forall k :: 0 <= k < |ItemRow(i)| ==> ItemRow(i)[k] == (Columns(ITEMS)[k], ItemCells(i)[k])
  {
  }

  lemma PaymentCellsStand(p: PaymentRow)
    ensures |PaymentCells(p)| == |Columns(PAYMENTS)| == |PaymentRowOf(p)|
    ensures forall k :: 0 <= k < |PaymentRowOf(p)| ==> PaymentRowOf(p)[k] == (Columns(PAYMENTS)[k], PaymentCells(p)[k])
  {
  }

  lemma AttemptCellsStand(t: AttemptRow)
    ensures |AttemptCells(t)| == |Columns(ATTEMPTS)| == |AttemptRowOf(t)|
    ensures forall k :: 0 <= k < |AttemptRowOf(t)| ==> AttemptRowOf(t)[k] == (Columns(ATTEMPTS)[k], AttemptCells(t)[k])
  {
  }
}

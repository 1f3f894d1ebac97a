/**
 * The four tables of a flush against the database schema
 * (backend/prisma/schema.prisma:40-73, 374-494): table names, unique keys, and
 * the enumerations that columns hold, statements cast to and cells spell.
 */
module SeedSchema {
  import opened Wrappers
  import opened Inserts = BulkInsert
  import opened OrderTypes
  import opened PaymentBundles
  import opened SeedLog
  import opened SeedRows

  // The enumeration type of a column, by the column's position.
  function EnumOf(t: Table, c: nat): Option<string> {
    match t
    case ORDERS => if c == 4 then Some("OrderStatus") else None
    case ITEMS => None
    case PAYMENTS =>
      if c == 3 then Some("PaymentMethod") else if c == 4 then Some("PaymentStatus")
      else if c == 5 then Some("RefundStatus") else None
    case ATTEMPTS => if c == 3 then Some("PaymentAttemptStatus") else None
  }

  // The columns of the unique key that ON CONFLICT names.
  function UniqueKey(t: Table): seq<string> {
    match t
    case ORDERS => ["id", "organizationId"]
    case ITEMS => ["id"]
    case PAYMENTS => ["orderId"]
    case ATTEMPTS => ["id"]
  }

  function Quoted(names: seq<string>): string
    requires names != []
  {
    var name := "\"" + names[|names| - 1] + "\"";
    if |names| == 1 then name else Quoted(names[..|names| - 1]) + ", " + name
  }

  lemma OneName(name: string)
    ensures Quoted([name]) == "\"" + name + "\""
  {
  }

  lemma TwoNames(a: string, b: string)
    ensures Quoted([a, b]) == "\"" + a + "\", \"" + b + "\""
  {
    OneName(a);
    assert [a, b][..1] == [a];
  }

  // The key columns, one of which tells the generated rows apart.
  lemma KeysAreColumns(t: Table)
    ensures Columns(t)[KeyColumn(t)] in UniqueKey(t) && forall name :: name in UniqueKey(t) ==> name in Columns(t)
  {
    assert Columns(t)[0] == "id";
    assert Columns(ORDERS)[1] == "organizationId" && Columns(PAYMENTS)[2] == "orderId";
  }

  lemma OrderKey()
    ensures "(" + Quoted(["id", "organizationId"]) + ")" == "(\"id\", \"organizationId\")"
  {
    TwoNames("id", "organizationId");
  }

  lemma ConflictsAreTheKeys(t: Table)
    ensures ConflictTarget(t) == "(" + Quoted(UniqueKey(t)) + ")"
  {
    if t == ORDERS {
      OrderKey();
    } else {
      OneName(UniqueKey(t)[0]);
    }
  }

  /** A flush inserts into the schema's tables, and gives way on a key that the generated ids keep distinct. */
  lemma TargetsAreTheSchemas(t: Table)
    ensures TargetOf(ORDERS).table == "Order" && TargetOf(ITEMS).table == "OrderItem"
    ensures TargetOf(PAYMENTS).table == "Payment" && TargetOf(ATTEMPTS).table == "PaymentAttempt"
    ensures TargetOf(t).conflict == "(" + Quoted(UniqueKey(t)) + ")"
    ensures Columns(t)[KeyColumn(t)] in UniqueKey(t) && forall name :: name in UniqueKey(t) ==> name in Columns(t)
  {
    ConflictsAreTheKeys(t);
    KeysAreColumns(t);
  }

  lemma CastsAreTheEnums(t: Table, c: nat, enumType: Option<string>)
    requires c < |Columns(t)|
    ensures CastAsMapped(TargetOf(t), c, enumType) <==> enumType == EnumOf(t, c)
  {
  }

  // One slot for each column, cast exactly where the column holds an enumeration.
  ghost predicate EnumsCast(t: Table, slots: seq<Slot>) {
    |slots| == |Columns(t)| && forall c :: 0 <= c < |slots| ==> slots[c].enumType == EnumOf(t, c)
  }

  /** Every statement of a flush casts exactly the columns that hold enumerations, each to its own type. */
  lemma EnumColumnsAreCast(t: Table, rows: seq<Row>)
    ensures forall q: Query<Cell> :: q in Statements(t, rows) ==>
              forall slots: seq<Slot> :: slots in q.values ==> EnumsCast(t, slots)
  {
    StatementsAreCast(TargetOf(t), rows, BATCH_SIZE);
    forall q: Query<Cell>, slots: seq<Slot> | q in Statements(t, rows) && slots in q.values
      ensures EnumsCast(t, slots)
    {
      assert TupleCast(TargetOf(t), slots);
      forall c | 0 <= c < |slots| ensures slots[c].enumType == EnumOf(t, c) {
        CastsAreTheEnums(t, c, slots[c].enumType);
      }
    }
  }

  // ---- What the labels mean -------------------------------------------------------------------

  function OrderStatusOf(text: string): Option<OrderStatus> {
    if text == "PENDING" then Some(PENDING) else if text == "CONFIRMED" then Some(CONFIRMED)
    else if text == "FULFILLED" then Some(FULFILLED) else if text == "CANCELLED" then Some(CANCELLED) else None
  }

  function MethodOf(text: string): Option<Method> {
    if text == "CARD" then Some(CARD) else if text == "CASH" then Some(CASH) else None
  }

  function PaymentStatusOf(text: string): Option<PaymentStatus> {
    if text == "UNPAID" then Some(UNPAID) else if text == "PENDING" then Some(AWAITING)
    else if text == "FAILED" then Some(FAILED) else if text == "PAID" then Some(PAID) else None
  }

  function RefundStatusOf(text: string): Option<RefundStatus> {
    if text == "NONE" then Some(NO_REFUND) else if text == "REQUESTED" then Some(REQUESTED)
    else if text == "PENDING" then Some(IN_PROGRESS) else if text == "FAILED" then Some(REFUND_FAILED)
    else if text == "REFUNDED" then Some(REFUNDED) else None
  }

  function AttemptStatusOf(text: string): Option<AttemptStatus> {
    if text == "PENDING" then Some(STARTED) else if text == "REQUIRES_ACTION" then Some(REQUIRES_ACTION)
    else if text == "SUCCEEDED" then Some(SUCCEEDED) else if text == "FAILED" then Some(ATTEMPT_FAILED)
    else if text == "CANCELED" then Some(CANCELED) else None
  }

  lemma NamesReadBack(s: OrderStatus, m: Method, p: PaymentStatus, r: RefundStatus, a: AttemptStatus)
    ensures OrderStatusOf(StatusName(s)) == Some(s) && MethodOf(MethodName(m)) == Some(m)
    ensures PaymentStatusOf(PaymentName(p)) == Some(p) && RefundStatusOf(RefundName(r)) == Some(r)
    ensures AttemptStatusOf(AttemptName(a)) == Some(a)
  {
  }

  /** Optional values are NULL exactly where they are missing, and read back otherwise. */
  lemma OptionalsReadBack(id: Option<nat>, time: Option<int>, text: Option<string>)
    ensures (RefCell(id) == Null <==> id.None?) && (id.Some? ==> RefCell(id) == Ref(id.value))
    ensures (TimeCell(time) == Null <==> time.None?) && (time.Some? ==> TimeCell(time) == Time(time.value))
    ensures (TextCell(text) == Null <==> text.None?) && (text.Some? ==> TextCell(text) == Text(text.value))
  {
  }

  // A text cell that reads back as the value.
  ghost predicate Reads<S(!new)>(cell: Cell, read: string -> Option<S>, value: S) {
    cell.Text? && read(cell.text) == Some(value)
  }

  /** What the database reads back from the enumeration columns is what was generated. */
  lemma LabelsReadBack(o: Order, p: PaymentRow, a: AttemptRow)
    ensures Reads(OrderCells(o)[4], OrderStatusOf, o.status)
    ensures if p.via.None? then PaymentCells(p)[3] == Null else Reads(PaymentCells(p)[3], MethodOf, p.via.value)
    ensures Reads(PaymentCells(p)[4], PaymentStatusOf, p.paymentStatus)
    ensures Reads(PaymentCells(p)[5], RefundStatusOf, p.refundStatus)
    ensures Reads(AttemptCells(a)[3], AttemptStatusOf, a.status)
  {
    NamesReadBack(o.status, if p.via.Some? then p.via.value else CARD, p.paymentStatus, p.refundStatus, a.status);
  }
}

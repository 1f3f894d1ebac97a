/**
 * The order loop's tables as the database sees them: four buffers of rows, and
 * the log of INSERT statements that the flushes send, parents first
 * (backend/prisma/seed.demo.ts:2358-2475).
 */
module SeedLog {
  import opened Arithmetic
  import opened Wrappers
  import opened Inserts = BulkInsert

  datatype Cell = Null | Ref(id: nat) | Num(n: int) | Text(text: string) | Time(t: int) | Secret(intentId: nat)

  type Row = seq<Cell>

  datatype Table = ORDERS | ITEMS | PAYMENTS | ATTEMPTS

  // The rows one turn of the loop pushes.
  datatype TurnRows = TurnRows(order: Row, items: seq<Row>, payments: seq<Row>, attempts: seq<Row>) {
    function Of(t: Table): seq<Row> {
      match t
      case ORDERS => [order]
      case ITEMS => items
      case PAYMENTS => payments
      case ATTEMPTS => attempts
    }
  }

  function AllOf(turns: seq<TurnRows>, t: Table): seq<Row> {
    if turns == [] then [] else AllOf(turns[..|turns| - 1], t) + turns[|turns| - 1].Of(t)
  }

  function TableName(t: Table): string {
    match t
    case ORDERS => "Order"
    case ITEMS => "OrderItem"
    case PAYMENTS => "Payment"
    case ATTEMPTS => "PaymentAttempt"
  }

  function Columns(t: Table): seq<string> {
    match t
    case ORDERS =>
      ["id", "organizationId", "customerId", "locationId", "status", "subtotalCents", "taxCents", "discountCents",
       "totalCents", "createdAt", "updatedAt", "placedAt", "cancelledAt"]
    case ITEMS =>
      ["id", "orderId", "productId", "organizationId", "productName", "sku", "qty", "unitPriceCents",
       "lineSubtotalCents", "discountCents", "taxCents", "lineTotalCents"]
    case PAYMENTS =>
      ["id", "organizationId", "orderId", "method", "paymentStatus", "refundStatus", "amountCents", "currencyCode",
       "stripeRefundId", "paidAt", "refundRequestedAt", "refundedAt", "refundFailedAt", "refundReason",
       "lastPaymentFailure", "lastRefundFailure", "createdAt", "updatedAt"]
    case ATTEMPTS =>
      ["id", "paymentId", "stripePaymentIntentId", "status", "clientSecret", "amountCents", "currencyCode",
       "lastFailure", "createdAt", "updatedAt"]
  }

  function Casts(t: Table): map<string, string> {
    match t
    case ORDERS => map["status" := "OrderStatus"]
    case ITEMS => map[]
    case PAYMENTS =>
      map["method" := "PaymentMethod", "paymentStatus" := "PaymentStatus", "refundStatus" := "RefundStatus"]
    case ATTEMPTS => map["status" := "PaymentAttemptStatus"]
  }

  function ConflictTarget(t: Table): string {
    match t
    case ORDERS => "(\"id\", \"organizationId\")"
    case ITEMS => "(\"id\")"
    case PAYMENTS => "(\"orderId\")"
    case ATTEMPTS => "(\"id\")"
  }

  function TargetOf(t: Table): Target {
    Target(TableName(t), Columns(t), Casts(t), ConflictTarget(t))
  }

  function Width(t: Table): nat {
    match t
    case ORDERS => 13
    case ITEMS => 12
    case PAYMENTS => 18
    case ATTEMPTS => 10
  }

  lemma RowWidthOf(u: Table)
    ensures |TargetOf(u).columns| == Width(u)
  {
  }

  // Rows as wide as their tables, children of rows of the same turn.
  ghost predicate Fit(r: TurnRows) {
    && (forall t: Table {:trigger Width(t)} :: Rectangular(r.Of(t), Width(t)))
    && (forall t: Table {:trigger Parent(t)} :: Parent(t).Some? ==>
          KeysMet(r.Of(Parent(t).value), r.Of(t), ParentColumn(t)))
  }

  ghost predicate AllFit(turns: seq<TurnRows>) {
    forall k :: 0 <= k < |turns| ==> Fit(turns[k])
  }

  lemma {:induction false} AllRectangular(turns: seq<TurnRows>, t: Table)
    requires AllFit(turns)
    ensures Rectangular(AllOf(turns, t), Width(t))
  {
    if turns != [] {
      AllRectangular(turns[..|turns| - 1], t);
      assert Fit(turns[|turns| - 1]);
    }
  }

  lemma AllOfLast(turns: seq<TurnRows>, r: TurnRows, t: Table)
    ensures AllOf(turns + [r], t) == AllOf(turns, t) + r.Of(t)
  {
  }

  lemma {:induction false} AllOfConcat(a: seq<TurnRows>, b: seq<TurnRows>, t: Table)
    ensures AllOf(a + b, t) == AllOf(a, t) + AllOf(b, t)
  {
    if b == [] {
      assert a + b == a;
    } else {
      var n := |b| - 1;
      AllOfConcat(a, b[..n], t);
      assert b == b[..n] + [b[n]] && a + b == (a + b[..n]) + [b[n]];
      AllOfLast(a + b[..n], b[n], t);
      AllOfLast(b[..n], b[n], t);
      Regroup(AllOf(a, t), AllOf(b[..n], t), b[n].Of(t));
    }
  }

  lemma Regroup<T>(a: seq<T>, b: seq<T>, c: seq<T>)
    ensures (a + b) + c == a + (b + c)
  {
  }

  // What bulkInsert sends for a table's rows.
  ghost function Statements(t: Table, rows: seq<Row>): seq<Query<Cell>> {
    Queries(TargetOf(t), rows, BATCH_SIZE)
  }

  // ---- The log -------------------------------------------------------------------

  // What the statements of a log have put into a table.
  ghost function TableRows(log: seq<Query<Cell>>, t: Table): seq<Row> {
    if log == [] then []
    else (if log[0].target.table == TableName(t) then Inserted(log[0]) else []) + TableRows(log[1..], t)
  }

  function Parent(t: Table): Option<Table> {
    match t
    case ORDERS => None
    case ITEMS => Some(ORDERS)
    case PAYMENTS => Some(ORDERS)
    case ATTEMPTS => Some(PAYMENTS)
  }

  // The column that refers to the parent's id, the parent's first column.
  function ParentColumn(t: Table): nat {
    if t == PAYMENTS then 2 else 1
  }

  ghost predicate HasKey(rows: seq<Row>, key: Cell) {
    exists j :: 0 <= j < |rows| && |rows[j]| > 0 && rows[j][0] == key
  }

  ghost predicate KeysMet(parents: seq<Row>, rows: seq<Row>, column: nat) {
    forall i :: 0 <= i < |rows| ==> |rows[i]| > column && HasKey(parents, rows[i][column])
  }

  // The statement only refers to rows that the statements before it inserted.
  ghost predicate Accepted(before: seq<Query<Cell>>, q: Query<Cell>) {
    forall t: Table :: q.target.table == TableName(t) && Parent(t).Some? ==>
      KeysMet(TableRows(before, Parent(t).value), Inserted(q), ParentColumn(t))
  }

  /** No statement of the log, at the moment it is issued, breaks a foreign key. */
  ghost predicate Referential(log: seq<Query<Cell>>) {
    forall k :: 0 <= k < |log| ==> Accepted(log[..k], log[k])
  }

  lemma {:induction false} TableRowsConcat(a: seq<Query<Cell>>, b: seq<Query<Cell>>, t: Table)
    ensures TableRows(a + b, t) == TableRows(a, t) + TableRows(b, t)
  {
    if a == [] {
      assert a + b == b;
    } else {
      TableRowsConcat(a[1..], b, t);
      FirstOf(a, b);
      OneStatement(a[0], a[1..], t);
      OneStatement(a[0], a[1..] + b, t);
      Regroup(if a[0].target.table == TableName(t) then Inserted(a[0]) else [], TableRows(a[1..], t), TableRows(b, t));
    }
  }

  lemma FirstOf<T>(a: seq<T>, b: seq<T>)
    requires a != []
    ensures a == [a[0]] + a[1..] && a + b == [a[0]] + (a[1..] + b)
  {
  }

  lemma HasKeyMonotone(rows: seq<Row>, more: seq<Row>, key: Cell)
    requires HasKey(rows, key)
    ensures HasKey(rows + more, key)
  {
    var j :| 0 <= j < |rows| && |rows[j]| > 0 && rows[j][0] == key;
    assert (rows + more)[j] == rows[j];
  }

  lemma KeysMetMonotone(parents: seq<Row>, more: seq<Row>, rows: seq<Row>, column: nat)
    requires KeysMet(parents, rows, column)
    ensures KeysMet(parents + more, rows, column)
  {
    forall i | 0 <= i < |rows| ensures |rows[i]| > column && HasKey(parents + more, rows[i][column]) {
      HasKeyMonotone(parents, more, rows[i][column]);
    }
  }

  // The first statement inserts the first batch, the others the rows that are left.
  lemma FirstStatement(u: Table, rows: seq<Row>) returns (q: Query<Cell>, n: nat)
    requires rows != [] && Rectangular(rows, Width(u))
    ensures 0 < n <= |rows| && rows == rows[..n] + rows[n..] && Rectangular(rows[n..], Width(u))
    ensures q.target.table == TableName(u) && Inserted(q) == rows[..n]
    ensures Statements(u, rows) == [q] + Statements(u, rows[n..])
  {
    n := Min(BATCH_SIZE, |rows|);
    q := QueryFor(TargetOf(u), rows[..n]);
    RowWidthOf(u);
    FirstQuery(TargetOf(u), rows, BATCH_SIZE);
    QueryInsertsBatch(TargetOf(u), rows[..n]);
  }

  // The batches of one bulk insert fill their own table only.
  lemma {:induction false} TableRowsOfQueries(u: Table, rows: seq<Row>, t: Table)
    requires Rectangular(rows, Width(u))
    ensures TableRows(Statements(u, rows), t) == if t == u then rows else []
    decreases |rows|
  {
    if rows != [] {
      var q, n := FirstStatement(u, rows);
      TableRowsOfQueries(u, rows[n..], t);
      OneBatch(u, q, Statements(u, rows[n..]), rows[..n], rows[n..], t);
    }
  }

  lemma OneBatch(u: Table, q: Query<Cell>, rest: seq<Query<Cell>>, batch: seq<Row>, others: seq<Row>, t: Table)
    requires q.target.table == TableName(u) && Inserted(q) == batch
    requires TableRows(rest, t) == if t == u then others else []
    ensures TableRows([q] + rest, t) == if t == u then batch + others else []
  {
  }

  lemma OneStatement(q: Query<Cell>, rest: seq<Query<Cell>>, t: Table)
    ensures TableRows([q] + rest, t) ==
            (if q.target.table == TableName(t) then Inserted(q) else []) + TableRows(rest, t)
  {
  }

  lemma ReferentialStep(log: seq<Query<Cell>>, q: Query<Cell>)
    requires Referential(log) && Accepted(log, q)
    ensures Referential(log + [q])
  {
    var log' := log + [q];
    forall k | 0 <= k < |log'| ensures Accepted(log'[..k], log'[k]) {
      assert log'[..k] == log[..k];
      if k == |log| { assert log[..k] == log; }
    }
  }

  lemma AcceptedBatch(log: seq<Query<Cell>>, u: Table, q: Query<Cell>)
    requires q.target.table == TableName(u)
    requires Parent(u).Some? ==> KeysMet(TableRows(log, Parent(u).value), Inserted(q), ParentColumn(u))
    ensures Accepted(log, q)
  {
  }

  // Batches whose parents are all there may be appended to the log.
  lemma {:induction false} ReferentialAppend(log: seq<Query<Cell>>, u: Table, rows: seq<Row>)
    requires Referential(log) && Rectangular(rows, Width(u))
    requires Parent(u).Some? ==> KeysMet(TableRows(log, Parent(u).value), rows, ParentColumn(u))
    ensures Referential(log + Statements(u, rows))
    decreases |rows|
  {
    if rows == [] {
      assert log + Statements(u, rows) == log;
    } else {
      var q, n := FirstStatement(u, rows);
      NextBatch(log, u, q, rows[..n], rows[n..], rows);
      ReferentialAppend(log + [q], u, rows[n..]);
      Regroup(log, [q], Statements(u, rows[n..]));
    }
  }

  // The next batch is accepted, and the parents of the others are still there after it.
  lemma NextBatch(log: seq<Query<Cell>>, u: Table, q: Query<Cell>, batch: seq<Row>, others: seq<Row>, rows: seq<Row>)
    requires Referential(log) && q.target.table == TableName(u) && Inserted(q) == batch && rows == batch + others
    requires Parent(u).Some? ==> KeysMet(TableRows(log, Parent(u).value), rows, ParentColumn(u))
    ensures Referential(log + [q])
    ensures Parent(u).Some? ==> KeysMet(TableRows(log + [q], Parent(u).value), others, ParentColumn(u))
  {
    if Parent(u).Some? {
      var parents := TableRows(log, Parent(u).value);
      PartsMet(parents, batch, others, ParentColumn(u));
      TableRowsConcat(log, [q], Parent(u).value);
      KeysMetMonotone(parents, TableRows([q], Parent(u).value), others, ParentColumn(u));
    }
    AcceptedBatch(log, u, q);
    ReferentialStep(log, q);
  }

  lemma PartsMet(parents: seq<Row>, batch: seq<Row>, others: seq<Row>, column: nat)
    requires KeysMet(parents, batch + others, column)
    ensures KeysMet(parents, batch, column) && KeysMet(parents, others, column)
  {
    forall i | 0 <= i < |batch| ensures |batch[i]| > column && HasKey(parents, batch[i][column]) {
      assert (batch + others)[i] == batch[i];
    }
    forall i | 0 <= i < |others| ensures |others[i]| > column && HasKey(parents, others[i][column]) {
      assert (batch + others)[|batch| + i] == others[i];
    }
  }

  // ---- Loading generated orders -----------------------------------------------------

  lemma HasKeyAfter(more: seq<Row>, rows: seq<Row>, key: Cell)
    requires HasKey(rows, key)
    ensures HasKey(more + rows, key)
  {
    var j :| 0 <= j < |rows| && |rows[j]| > 0 && rows[j][0] == key;
    assert (more + rows)[|more| + j] == rows[j];
  }

  lemma KeysMetTogether(
    parents: seq<Row>, parents': seq<Row>, rows: seq<Row>, rows': seq<Row>, column: nat)
    requires KeysMet(parents, rows, column) && KeysMet(parents', rows', column)
    ensures KeysMet(parents + parents', rows + rows', column)
  {
    KeysMetMonotone(parents, parents', rows, column);
    forall i | 0 <= i < |rows + rows'|
      ensures |(rows + rows')[i]| > column && HasKey(parents + parents', (rows + rows')[i][column])
    {
      if i >= |rows| {
        assert (rows + rows')[i] == rows'[i - |rows|];
        HasKeyAfter(parents, parents', rows'[i - |rows|][column]);
      }
    }
  }

  lemma {:induction false} AllKeysMet(turns: seq<TurnRows>, t: Table)
    requires Parent(t).Some? && AllFit(turns)
    ensures KeysMet(AllOf(turns, Parent(t).value), AllOf(turns, t), ParentColumn(t))
  {
    if turns != [] {
      var n := |turns| - 1;
      AllKeysMet(turns[..n], t);
      assert Fit(turns[n]);
      KeysMetTogether(AllOf(turns[..n], Parent(t).value), turns[n].Of(Parent(t).value),
                      AllOf(turns[..n], t), turns[n].Of(t), ParentColumn(t));
    }
  }

  function Rank(t: Table): nat {
    match t
    case ORDERS => 0
    case ITEMS => 1
    case PAYMENTS => 2
    case ATTEMPTS => 3
  }

  // The first loaded tables hold all generated orders, the others the first done of them.
  ghost predicate Loaded(log: seq<Query<Cell>>, gen: seq<TurnRows>, done: nat, loaded: nat) {
    && done <= |gen|
    && forall t: Table :: TableRows(log, t) == AllOf(if Rank(t) < loaded then gen else gen[..done], t)
  }

  lemma AllOfSplit(gen: seq<TurnRows>, done: nat, t: Table)
    requires done <= |gen|
    ensures AllOf(gen, t) == AllOf(gen[..done], t) + AllOf(gen[done..], t)
  {
    assert gen == gen[..done] + gen[done..];
    AllOfConcat(gen[..done], gen[done..], t);
  }

  // A bulk insert appended to the log fills its own table.
  lemma TableRowsAppend(log: seq<Query<Cell>>, u: Table, rows: seq<Row>, t: Table)
    requires Rectangular(rows, Width(u))
    ensures TableRows(log + Statements(u, rows), t) ==
            TableRows(log, t) + (if t == u then rows else [])
  {
    RowWidthOf(u);
    TableRowsConcat(log, Statements(u, rows), t);
    TableRowsOfQueries(u, rows, t);
  }

  // The parents of the rows still to be loaded are in the log already.
  lemma ParentsLoaded(log: seq<Query<Cell>>, gen: seq<TurnRows>, done: nat, u: Table, parent: Table)
    requires Loaded(log, gen, done, Rank(u)) && Parent(u) == Some(parent)
    requires AllFit(gen)
    ensures KeysMet(TableRows(log, parent), AllOf(gen[done..], u), ParentColumn(u))
  {
    AllKeysMet(gen[done..], u);
    AllOfSplit(gen, done, parent);
    KeysAfter(AllOf(gen[..done], parent), AllOf(gen[done..], parent), AllOf(gen[done..], u), ParentColumn(u));
  }

  // Loading the next table keeps every foreign key and fills exactly that table.
  lemma LoadNext(log: seq<Query<Cell>>, gen: seq<TurnRows>, done: nat, u: Table, rows: seq<Row>)
    requires Referential(log) && Loaded(log, gen, done, Rank(u)) && rows == AllOf(gen[done..], u)
    requires AllFit(gen)
    ensures var log' := log + Statements(u, rows);
            Referential(log') && Loaded(log', gen, done, Rank(u) + 1)
  {
    AllRectangular(gen[done..], u);
    RowWidthOf(u);
    if Parent(u).Some? {
      ParentsLoaded(log, gen, done, u, Parent(u).value);
    }
    ReferentialAppend(log, u, rows);
    var log' := log + Statements(u, rows);
    forall t: Table ensures TableRows(log', t) == AllOf(if Rank(t) < Rank(u) + 1 then gen else gen[..done], t) {
      TableRowsAppend(log, u, rows, t);
      SameRank(t, u);
      AllOfSplit(gen, done, t);
    }
  }

  lemma SameRank(t: Table, u: Table)
    ensures Rank(t) == Rank(u) <==> t == u
  {
  }

  lemma KeysAfter(more: seq<Row>, parents: seq<Row>, rows: seq<Row>, column: nat)
    requires KeysMet(parents, rows, column)
    ensures KeysMet(more + parents, rows, column)
  {
    forall i | 0 <= i < |rows| ensures |rows[i]| > column && HasKey(more + parents, rows[i][column]) {
      HasKeyAfter(more, parents, rows[i][column]);
    }
  }

  /** One flush stays within the parameter cap except when it holds more than 3640 payments. */
  lemma FlushStaysWithinCap(turns: seq<TurnRows>, t: Table)
    requires AllFit(turns)
    ensures (forall q :: q in Statements(t, AllOf(turns, t)) ==> |q.params| <= PARAMETER_CAP) <==>
            (t == PAYMENTS ==> |AllOf(turns, t)| <= 3640)
  {
    AllRectangular(turns, t);
    RowWidthOf(t);
    CapHoldsIff(TargetOf(t), AllOf(turns, t), BATCH_SIZE);
    CapOf(t, |AllOf(turns, t)|);
  }

  lemma CapOf(t: Table, n: nat)
    ensures Min(BATCH_SIZE, n) * Width(t) <= PARAMETER_CAP <==> (t == PAYMENTS ==> n <= 3640)
  {
  }

  // ---- Flushes ------------------------------------------------------------------------

  // The statements of one flush: parents first.
  ghost function FlushQueries(turns: seq<TurnRows>): seq<Query<Cell>> {
    Statements(ORDERS, AllOf(turns, ORDERS)) + Statements(ITEMS, AllOf(turns, ITEMS)) +
    Statements(PAYMENTS, AllOf(turns, PAYMENTS)) +
    Statements(ATTEMPTS, AllOf(turns, ATTEMPTS))
  }

  // The statements of all flushes.
  ghost function LogOf(flushed: seq<seq<TurnRows>>): seq<Query<Cell>> {
    if flushed == [] then [] else LogOf(flushed[..|flushed| - 1]) + FlushQueries(flushed[|flushed| - 1])
  }

  lemma FourLoads<T>(log: seq<T>, a: seq<T>, b: seq<T>, c: seq<T>, d: seq<T>)
    ensures (((log + a) + b) + c) + d == log + (a + b + c + d)
  {
  }

  // Loading orders and items, then payments and attempts.
  lemma TwoLoads(
    log: seq<Query<Cell>>, gen: seq<TurnRows>, done: nat, t: Table, u: Table, r: seq<Row>, r': seq<Row>)
    requires Rank(u) == Rank(t) + 1 && AllFit(gen) && done <= |gen|
    requires Referential(log) && Loaded(log, gen, done, Rank(t))
    requires r == AllOf(gen[done..], t) && r' == AllOf(gen[done..], u)
    ensures Referential(log + Statements(t, r) + Statements(u, r'))
    ensures Loaded(log + Statements(t, r) + Statements(u, r'), gen, done, Rank(u) + 1)
  {
    LoadNext(log, gen, done, t, r);
    LoadNext(log + Statements(t, r), gen, done, u, r');
  }

  // One flush, from what the earlier ones left.
  lemma FlushLoads(log: seq<Query<Cell>>, gen: seq<TurnRows>, done: nat)
    requires Referential(log) && Loaded(log, gen, done, 0) && AllFit(gen)
    ensures var log' := log + FlushQueries(gen[done..]);
            Referential(log') && Loaded(log', gen, done, 4)
  {
    var o, i := AllOf(gen[done..], ORDERS), AllOf(gen[done..], ITEMS);
    var p, a := AllOf(gen[done..], PAYMENTS), AllOf(gen[done..], ATTEMPTS);
    TwoLoads(log, gen, done, ORDERS, ITEMS, o, i);
    TwoLoads(log + Statements(ORDERS, o) + Statements(ITEMS, i), gen, done, PAYMENTS, ATTEMPTS, p, a);
    FourLoads(log, Statements(ORDERS, o), Statements(ITEMS, i), Statements(PAYMENTS, p), Statements(ATTEMPTS, a));
  }

  /**
   * However the turns are cut into flushes, no statement breaks a foreign key
   * at the moment it is issued, and each table holds exactly the flushed rows.
   */
  lemma {:induction false} FlushesKeepIntegrity(flushed: seq<seq<TurnRows>>)
    requires AllFit(Flatten(flushed))
    ensures Referential(LogOf(flushed))
    ensures forall t: Table :: TableRows(LogOf(flushed), t) == AllOf(Flatten(flushed), t)
  {
    if flushed != [] {
      var before, last := flushed[..|flushed| - 1], flushed[|flushed| - 1];
      var gen, done := Flatten(flushed), |Flatten(before)|;
      assert gen[..done] == Flatten(before) && gen[done..] == last;
      FitPrefix(gen, done);
      FlushesKeepIntegrity(before);
      FlushLoads(LogOf(before), gen, done);
      forall t: Table ensures TableRows(LogOf(flushed), t) == AllOf(gen, t) {
        RankBound(t);
      }
    }
  }

  lemma FitPrefix(turns: seq<TurnRows>, done: nat)
    requires AllFit(turns) && done <= |turns|
    ensures AllFit(turns[..done])
  {
  }

  lemma RankBound(t: Table)
    ensures Rank(t) < 4
  {
  }

  // ---- Runs of the order loop -----------------------------------------------------------

  // The loop's buffers and counters, and the statements sent to the database.
  datatype Buffers = Buffers(
    orderRows: seq<Row>, orderItemRows: seq<Row>, paymentRows: seq<Row>,
    paymentAttemptRows: seq<Row>, totalOrders: nat, totalOrderItems: nat, totalPayments: nat,
    totalPaymentAttempts: nat, log: seq<Query<Cell>>)
  {
    function Of(t: Table): seq<Row> {
      match t
      case ORDERS => orderRows
      case ITEMS => orderItemRows
      case PAYMENTS => paymentRows
      case ATTEMPTS => paymentAttemptRows
    }

    function Total(t: Table): nat {
      match t
      case ORDERS => totalOrders
      case ITEMS => totalOrderItems
      case PAYMENTS => totalPayments
      case ATTEMPTS => totalPaymentAttempts
    }
  }

  datatype Event = Turn(turn: TurnRows) | Flush

  function AfterTurn(b: Buffers, r: TurnRows): Buffers {
    b.(orderRows := b.orderRows + [r.order], orderItemRows := b.orderItemRows + r.items,
       paymentRows := b.paymentRows + r.payments, paymentAttemptRows := b.paymentAttemptRows + r.attempts)
  }

  ghost function AfterFlush(b: Buffers): Buffers {
    if b.orderRows == [] then b
    else
      Buffers([], [], [], [], b.totalOrders + |b.orderRows|, b.totalOrderItems + |b.orderItemRows|,
              b.totalPayments + |b.paymentRows|, b.totalPaymentAttempts + |b.paymentAttemptRows|,
              b.log + Statements(ORDERS, b.orderRows) + Statements(ITEMS, b.orderItemRows) +
              Statements(PAYMENTS, b.paymentRows) + Statements(ATTEMPTS, b.paymentAttemptRows))
  }

  // Where a history of turns and flushes leads to.
  ghost function Run(history: seq<Event>): Buffers {
    if history == [] then Buffers([], [], [], [], 0, 0, 0, 0, [])
    else
      var before, last := Run(history[..|history| - 1]), history[|history| - 1];
      if last == Flush then AfterFlush(before) else AfterTurn(before, last.turn)
  }

  // The turns of a history, those not yet flushed, and those of each flush.
  ghost function Turns(history: seq<Event>): seq<TurnRows> {
    if history == [] then []
    else
      var before, last := Turns(history[..|history| - 1]), history[|history| - 1];
      if last == Flush then before else before + [last.turn]
  }

  ghost function Pending(history: seq<Event>): seq<TurnRows> {
    if history == [] || history[|history| - 1] == Flush then []
    else Pending(history[..|history| - 1]) + [history[|history| - 1].turn]
  }

  ghost function Batches(history: seq<Event>): seq<seq<TurnRows>> {
    if history == [] then []
    else
      var before := history[..|history| - 1];
      if history[|history| - 1] == Flush then Batches(before) + [Pending(before)] else Batches(before)
  }

  lemma {:induction false} OrderCount(turns: seq<TurnRows>)
    ensures |AllOf(turns, ORDERS)| == |turns|
  {
    if turns != [] {
      OrderCount(turns[..|turns| - 1]);
    }
  }

  lemma {:induction false} TurnsAreBatchesAndPending(history: seq<Event>)
    ensures Turns(history) == Flatten(Batches(history)) + Pending(history)
  {
    if history != [] {
      var before, last := history[..|history| - 1], history[|history| - 1];
      TurnsAreBatchesAndPending(before);
      if last == Flush {
        FlattenLast(Batches(before), Pending(before));
      } else {
        Regroup(Flatten(Batches(before)), Pending(before), [last.turn]);
      }
    }
  }

  // The buffers hold the pending turns' rows.
  lemma {:induction false} BuffersHoldPending(history: seq<Event>, t: Table)
    ensures Run(history).Of(t) == AllOf(Pending(history), t)
  {
    if history != [] {
      var before, last := history[..|history| - 1], history[|history| - 1];
      BuffersHoldPending(before, t);
      if last == Flush {
        BuffersHoldPending(before, ORDERS);
        OrderCount(Pending(before));
      } else {
        AllOfLast(Pending(before), last.turn, t);
      }
    }
  }

  lemma EmptyFlush(turns: seq<TurnRows>)
    requires turns == []
    ensures FlushQueries(turns) == []
  {
  }

  // The log holds the statements of the flushes.
  lemma {:induction false} LogHoldsBatches(history: seq<Event>)
    ensures Run(history).log == LogOf(Batches(history))
  {
    if history != [] {
      var before, last := history[..|history| - 1], history[|history| - 1];
      LogHoldsBatches(before);
      if last == Flush {
        FlushExtendsLog(before);
        assert Batches(history)[..|Batches(before)|] == Batches(before);
      }
    }
  }

  lemma FlushExtendsLog(before: seq<Event>)
    ensures AfterFlush(Run(before)).log == Run(before).log + FlushQueries(Pending(before))
  {
    BuffersHoldPending(before, ORDERS);
    BuffersHoldPending(before, ITEMS);
    BuffersHoldPending(before, PAYMENTS);
    BuffersHoldPending(before, ATTEMPTS);
    OrderCount(Pending(before));
    if Run(before).orderRows == [] {
      EmptyFlush(Pending(before));
    } else {
      var b := Run(before);
      FourLoads(b.log, Statements(ORDERS, b.orderRows), Statements(ITEMS, b.orderItemRows),
                Statements(PAYMENTS, b.paymentRows), Statements(ATTEMPTS, b.paymentAttemptRows));
    }
  }

  lemma LastEvent(history: seq<Event>)
    requires history != []
    ensures var before, last := history[..|history| - 1], history[|history| - 1];
            if last == Flush
            then Run(history) == AfterFlush(Run(before)) && Batches(history) == Batches(before) + [Pending(before)]
            else Run(history) == AfterTurn(Run(before), last.turn) && Batches(history) == Batches(before)
  {
  }

  lemma TurnCounts(b: Buffers, r: TurnRows, t: Table)
    ensures AfterTurn(b, r).Total(t) == b.Total(t)
  {
  }

  lemma FlushCounts(b: Buffers, t: Table)
    requires b.orderRows == [] ==> b.Of(t) == []
    ensures AfterFlush(b).Total(t) == b.Total(t) + |b.Of(t)|
  {
  }

  // The counters count the flushed rows.
  lemma {:induction false} TotalsCountFlushed(history: seq<Event>, t: Table)
    ensures Run(history).Total(t) == |AllOf(Flatten(Batches(history)), t)|
  {
    if history != [] {
      var before, last := history[..|history| - 1], history[|history| - 1];
      TotalsCountFlushed(before, t);
      LastEvent(history);
      if last == Flush {
        FlushTotals(before, Run(before), Batches(before), Pending(before), t);
      } else {
        TurnCounts(Run(before), last.turn, t);
      }
    }
  }

  lemma FlushTotals(before: seq<Event>, b: Buffers, batches: seq<seq<TurnRows>>, pending: seq<TurnRows>, t: Table)
    requires b == Run(before) && pending == Pending(before)
    ensures AfterFlush(b).Total(t) - b.Total(t) ==
            |AllOf(Flatten(batches + [pending]), t)| - |AllOf(Flatten(batches), t)|
  {
    BuffersHoldPending(before, t);
    BuffersHoldPending(before, ORDERS);
    OrderCount(pending);
    FlushCounts(b, t);
    FlattenLast(batches, pending);
    AllOfConcat(Flatten(batches), pending, t);
  }

  lemma PendingFits(history: seq<Event>)
    requires AllFit(Turns(history))
    ensures AllFit(Pending(history))
  {
    TurnsAreBatchesAndPending(history);
    FitSuffix(Flatten(Batches(history)), Pending(history));
  }

  lemma FitSuffix(a: seq<TurnRows>, b: seq<TurnRows>)
    requires AllFit(a + b)
    ensures AllFit(b)
  {
    forall k | 0 <= k < |b| ensures Fit(b[k]) {
      assert (a + b)[|a| + k] == b[k];
    }
  }

  /**
   * Whatever is generated and wherever the flushes fall: no statement breaks a
   * foreign key at the moment it is issued, and the rows generated for a table
   * are those inserted followed by those buffered, each once and in order.
   */
  lemma InsertsKeepIntegrityAndLoseNothing(history: seq<Event>, t: Table)
    requires AllFit(Turns(history))
    ensures Referential(Run(history).log)
    ensures TableRows(Run(history).log, t) + Run(history).Of(t) == AllOf(Turns(history), t)
    ensures Run(history).Total(t) == |TableRows(Run(history).log, t)|
  {
    TurnsAreBatchesAndPending(history);
    LogHoldsBatches(history);
    BuffersHoldPending(history, t);
    TotalsCountFlushed(history, t);
    var flushed := Flatten(Batches(history));
    assert Turns(history)[..|flushed|] == flushed;
    FitPrefix(Turns(history), |flushed|);
    FlushesKeepIntegrity(Batches(history));
    AllOfConcat(flushed, Pending(history), t);
  }

  /** After the final flush every generated row is in its table. */
  lemma FinalFlushInsertsEverything(history: seq<Event>, t: Table)
    requires AllFit(Turns(history)) && history != [] && history[|history| - 1] == Flush
    ensures Run(history).Of(t) == [] && TableRows(Run(history).log, t) == AllOf(Turns(history), t)
    ensures Run(history).Total(t) == |AllOf(Turns(history), t)|
  {
    InsertsKeepIntegrityAndLoseNothing(history, t);
    BuffersHoldPending(history, t);
  }

  // ---- Distinct conflict keys -------------------------------------------------------------

  // The column a table's rows are told apart by: a payment by its order.
  function KeyColumn(t: Table): nat {
    if t == PAYMENTS then 2 else 0
  }

  // Keys of the rows are ids from lo up to hi, no two alike.
  ghost predicate DistinctKeys(rows: seq<Row>, column: nat, lo: nat, hi: nat) {
    && lo <= hi
    && (forall i :: 0 <= i < |rows| ==>
          |rows[i]| > column && rows[i][column].Ref? && lo <= rows[i][column].id < hi)
    && (forall i, j :: 0 <= i < j < |rows| ==> rows[i][column] != rows[j][column])
  }

  ghost predicate OwnIds(r: TurnRows, lo: nat, hi: nat) {
    forall t: Table {:trigger KeyColumn(t)} :: DistinctKeys(r.Of(t), KeyColumn(t), lo, hi)
  }

  // Every turn's ids were handed out before those of the next turn.
  ghost predicate Stamped(turns: seq<TurnRows>, hi: nat) {
    turns == [] ||
    exists lo {:trigger OwnIds(turns[|turns| - 1], lo, hi)} ::
      OwnIds(turns[|turns| - 1], lo, hi) && Stamped(turns[..|turns| - 1], lo)
  }

  lemma KeysDifferTogether(a: seq<Row>, b: seq<Row>, column: nat, lo: nat, mid: nat, hi: nat)
    requires DistinctKeys(a, column, lo, mid) && DistinctKeys(b, column, mid, hi)
    ensures DistinctKeys(a + b, column, lo, hi)
  {
  }

  /** No ON CONFLICT clause ever drops a generated row: the conflict keys of each table are pairwise distinct. */
  lemma {:induction false} NothingConflicts(turns: seq<TurnRows>, t: Table, hi: nat)
    requires Stamped(turns, hi)
    ensures DistinctKeys(AllOf(turns, t), KeyColumn(t), 0, hi)
  {
    if turns != [] {
      var n := |turns| - 1;
      var lo :| OwnIds(turns[n], lo, hi) && Stamped(turns[..n], lo);
      NothingConflicts(turns[..n], t, lo);
      KeysDifferTogether(AllOf(turns[..n], t), turns[n].Of(t), KeyColumn(t), 0, lo, hi);
    }
  }
}

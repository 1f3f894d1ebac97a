/**
 * The seed's order loop (backend/prisma/seed.demo.ts:2353-2557): orders are
 * generated into four buffers, which are flushed parents first.
 */
module SeedOrders {
  import opened Arithmetic
  import opened Wrappers
  import opened Inserts = BulkInsert
  import opened Lcg
  import opened OrderTypes
  import opened PaymentBundles
  import opened SeedLog
  import opened SeedRows
  import OrderTax

  function OrderStatuses(): (items: seq<OrderStatus>)
    ensures |items| == |OrderStatusWeights()| > 0
  {
    [FULFILLED, PENDING, CONFIRMED, CANCELLED]
  }

  function OrderStatusWeights(): seq<nat> { [68, 10, 15, 7] }

  function ItemCounts(): (items: seq<nat>)
    ensures |items| == |ItemCountWeights()| > 0
    ensures forall i :: 0 <= i < |items| ==> 1 <= items[i] <= 5
  {
    [1, 2, 3, 4, 5]
  }

  function ItemCountWeights(): seq<nat> { [40, 30, 15, 10, 5] }

  lemma OrderWeightTotals()
    ensures Sum(OrderStatusWeights()) == 100 && Sum(ItemCountWeights()) == 100
  {
    SumOfThree(68, 10, 15);
    SumSnoc([68, 10, 15], 7);
    assert OrderStatusWeights() == [68, 10, 15] + [7];
    SumOfThree(40, 30, 15);
    SumSnoc([40, 30, 15], 10);
    SumSnoc([40, 30, 15, 10], 5);
    assert ItemCountWeights() == [40, 30, 15] + [10] + [5];
  }

  // What holds of every turn of the loop.
  ghost predicate Sound(g: Generated, organizationId: nat, products: seq<Product>, customerIds: seq<nat>) {
    match g
    case Generated(order, items, bundle) =>
      && Joined(g) && Priced(g, products) && 1 <= |items| <= 5
      && order.organizationId == organizationId
      && (order.customerId.Some? ==> order.customerId.value in customerIds)
      && WellFormed(bundle, Args(order.id, organizationId, order.total, order.createdAt))
      && order.status == bundle.orderStatus && order.updatedAt == bundle.orderUpdatedAt
      && order.placedAt == bundle.placedAt && order.cancelledAt == bundle.cancelledAt
  }

  // ---- What the draws decide ---------------------------------------------------------------

  // What randomOrderDate draws for the calendar: a date in the last quarter, or a share of two years.
  datatype DateDraw =
    | Seasonal(yearsBack: int, month: int, day: int, hour: int, minute: int, second: int)
    | Anytime(share: real, hour: int, minute: int, second: int)

  // What an organization's orders draw from: products, customers, and the calendar with its clock.
  datatype Setting = Setting(products: seq<Product>, customerIds: seq<nat>, calendar: DateDraw -> int)

  ghost predicate DateDrawn(d: DateDraw, w: int) {
    var u := NextWord(w);
    match d
    case Seasonal(yearsBack, month, day, hour, minute, second) =>
      && Chance(u, 0.3) && yearsBack == (if Chance(WordAfter(u, 1), 0.5) then 2 else 1)
      && month == Choice(9, 11, WordAfter(u, 2)) && day == Choice(1, 28, WordAfter(u, 3))
      && hour == Choice(8, 21, WordAfter(u, 4))
      && minute == Choice(0, 59, WordAfter(u, 5)) && second == Choice(0, 59, WordAfter(u, 6))
    case Anytime(share, hour, minute, second) =>
      && !Chance(u, 0.3) && share == WordAfter(u, 1) as real / 4294967296.0
      && hour == Choice(8, 21, WordAfter(u, 2))
      && minute == Choice(0, 59, WordAfter(u, 3)) && second == Choice(0, 59, WordAfter(u, 4))
  }

  ghost function AfterDate(w: int): int {
    var u := NextWord(w);
    if Chance(u, 0.3) then WordAfter(u, 6) else WordAfter(u, 4)
  }

  // A known customer by a chance of 0.7, if there are any.
  ghost predicate CustomerDrawn(customerId: Option<nat>, customerIds: seq<nat>, w: int) {
    var u := NextWord(w);
    if Chance(u, 0.7) && customerIds != [] then
      var i := IndexDrawn(NextWord(u), |customerIds|);
      0 <= i < |customerIds| && customerId == Some(customerIds[i])
    else customerId == None
  }

  ghost function AfterCustomer(customerIds: seq<nat>, w: int): int {
    var u := NextWord(w);
    if Chance(u, 0.7) && customerIds != [] then NextWord(u) else u
  }

  ghost predicate StatusDrawn(status: OrderStatus, u: int) {
    exists i :: 0 <= i < 4 && Selects(u, [68, 10, 15, 7], i) && status == [FULFILLED, PENDING, CONFIRMED, CANCELLED][i]
  }

  // The number of lines: one more than the index selected.
  ghost predicate CountDrawn(n: nat, u: int) {
    n > 0 && Selects(u, [40, 30, 15, 10, 5], n - 1)
  }

  // The i-th line's product and quantity, from the word before the first line.
  ghost predicate LineDrawn(item: Item, products: seq<Product>, w: int, i: nat) {
    var k := IndexDrawn(WordAfter(w, 2 * i + 1), |products|);
    && 0 <= k < |products| && item.product == products[k]
    && item.qty == Choice(1, 5, WordAfter(w, 2 * i + 2))
  }

  ghost predicate LinesDrawn(items: seq<Item>, products: seq<Product>, w: int) {
    forall i :: 0 <= i < |items| ==> LineDrawn(items[i], products, w, i)
  }

  // The words a turn starts its parts on, when it starts on w.
  ghost function DateWord(customerIds: seq<nat>, w: int): int {
    AfterCustomer(customerIds, NextWord(w))
  }

  ghost function CountWord(customerIds: seq<nat>, w: int): int {
    NextWord(AfterDate(DateWord(customerIds, w)))
  }

  ghost function BundleWord(customerIds: seq<nat>, lines: nat, w: int): int {
    WordAfter(CountWord(customerIds, w), 2 * lines)
  }

  /**
   * The turn that a generator on word w draws: status, customer, date, lines and
   * history each by its own draws; w' is the word it then stands on.
   */
  ghost predicate TurnDrawn(g: Generated, c: Setting, w: int, w': int) {
    && StatusDrawn(g.order.status, NextWord(w))
    && CustomerDrawn(g.order.customerId, c.customerIds, NextWord(w))
    && (exists d :: DateDrawn(d, DateWord(c.customerIds, w)) && g.order.createdAt == c.calendar(d))
    && CountDrawn(|g.items|, CountWord(c.customerIds, w))
    && LinesDrawn(g.items, c.products, CountWord(c.customerIds, w))
    && HistoryDrawn(g, BundleWord(c.customerIds, |g.items|, w), w')
  }

  ghost predicate HistoryDrawn(g: Generated, w: int, w': int) {
    exists s :: DrawnSo(g.bundle, g.order.createdAt, g.order.status, s, w) && Shape(g.bundle, s) &&
      w' == AfterBundle(g.order.status, s, Via(g.bundle), w)
  }

  // One turn after the other: words lists the generator's words between them.
  ghost predicate TurnsDrawn(block: seq<Generated>, words: seq<int>, c: Setting) {
    |words| == |block| + 1 && forall k :: 0 <= k < |block| ==> TurnDrawn(block[k], c, words[k], words[k + 1])
  }

  // A location's orders: their number is drawn from min, ..., max, and then that many turns.
  ghost predicate LocationDrawn(
    block: seq<Generated>, words: seq<int>, locationId: nat, min: int, max: int, c: Setting, w: int)
    requires min <= max
  {
    && TurnsDrawn(block, words, c) && words[0] == NextWord(w)
    && min <= |block| <= max && |block| == min + IndexDrawn(words[0], max - min + 1)
    && AllAt(block, locationId)
  }

  ghost predicate AllAt(block: seq<Generated>, locationId: nat) {
    forall k :: 0 <= k < |block| ==> block[k].order.locationId == locationId
  }

  // The word before location l, when the seed starts on w.
  ghost function Before(runs: seq<seq<int>>, l: nat, w: int): int
    requires l <= |runs|
  {
    if l == 0 || runs[l - 1] == [] then w else runs[l - 1][|runs[l - 1]| - 1]
  }

  /** The orders of all locations, one block for each. */
  ghost predicate SeededSo(
    blocks: seq<seq<Generated>>, runs: seq<seq<int>>, locations: seq<nat>, min: int, max: int, c: Setting, w: int,
    w': int)
    requires min <= max
  {
    && |blocks| == |runs| == |locations| && w' == Before(runs, |runs|, w)
    && forall l :: 0 <= l < |blocks| ==>
         LocationDrawn(blocks[l], runs[l], locations[l], min, max, c, Before(runs, l, w))
  }

  // Lines pushed so far, with the running subtotal.
  ghost predicate Lines(
    items: seq<Item>, orderId: nat, organizationId: nat, products: seq<Product>, subtotal: int, lo: nat, hi: nat)
  {
    && (forall i :: 0 <= i < |items| ==>
          var item := items[i];
          && item.orderId == orderId && item.organizationId == organizationId
          && item.product in products && 1 <= item.qty <= 5
          && item.lineSubtotal == item.qty * item.product.priceCents
          && item.lineTax == OrderTax.TaxOf(item.lineSubtotal)
          && item.lineTotal == item.lineSubtotal + item.lineTax)
    && subtotal == Sum(Subtotals(items))
    && (forall i :: 0 <= i < |items| ==> lo <= items[i].id < hi)
    && (forall i, j :: 0 <= i < j < |items| ==> items[i].id != items[j].id)
  }

  lemma OneMoreLine(
    items: seq<Item>, item: Item, orderId: nat, organizationId: nat, products: seq<Product>, subtotal: int,
    lo: nat, hi: nat)
    requires Lines(items, orderId, organizationId, products, subtotal, lo, hi) && item.id == hi >= lo
    requires item.orderId == orderId && item.organizationId == organizationId && item.product in products
    requires 1 <= item.qty <= 5 && item.lineSubtotal == item.qty * item.product.priceCents
    requires item.lineTax == OrderTax.TaxOf(item.lineSubtotal) && item.lineTotal == item.lineSubtotal + item.lineTax
    ensures Lines(items + [item], orderId, organizationId, products, subtotal + item.lineSubtotal, lo, hi + 1)
    ensures ItemRows(items + [item]) == ItemRows(items) + [ItemCells(item)]
  {
    var all := Subtotals(items + [item]);
    assert all[..|items|] == Subtotals(items);
  }

  lemma SixWords(w: int)
    ensures WordAfter(w, 1) == NextWord(w) && WordAfter(w, 2) == NextWord(WordAfter(w, 1))
    ensures WordAfter(w, 3) == NextWord(WordAfter(w, 2)) && WordAfter(w, 4) == NextWord(WordAfter(w, 3))
    ensures WordAfter(w, 5) == NextWord(WordAfter(w, 4)) && WordAfter(w, 6) == NextWord(WordAfter(w, 5))
  {
    assert WordAfter(w, 0) == w;
  }

  lemma OneMoreLineDrawn(items: seq<Item>, item: Item, products: seq<Product>, w: int)
    requires LinesDrawn(items, products, w)
    requires var k := IndexDrawn(NextWord(WordAfter(w, 2 * |items|)), |products|);
             0 <= k < |products| && item.product == products[k]
    requires item.qty == Choice(1, 5, NextWord(NextWord(WordAfter(w, 2 * |items|))))
    ensures LinesDrawn(items + [item], products, w)
    ensures WordAfter(w, 2 * (|items| + 1)) == NextWord(NextWord(WordAfter(w, 2 * |items|)))
  {
    var i := |items|;
    assert WordAfter(w, 2 * i + 1) == NextWord(WordAfter(w, 2 * i));
    assert WordAfter(w, 2 * i + 2) == NextWord(WordAfter(w, 2 * i + 1));
    assert LineDrawn(item, products, w, i);
  }

  class OrderSeeder {
    const seeder: Seeder
    const organizationId: nat
    const products: seq<Product>
    const customerIds: seq<nat>
    // The calendar and the clock behind randomOrderDate.
    const calendar: DateDraw -> int

    var orderRows: seq<seq<Cell>>
    var orderItemRows: seq<seq<Cell>>
    var paymentRows: seq<seq<Cell>>
    var paymentAttemptRows: seq<seq<Cell>>
    var totalOrders: nat
    var totalOrderItems: nat
    var totalPayments: nat
    var totalPaymentAttempts: nat
    // The statements sent to the database.
    var log: seq<Query<Cell>>

    // The turns and flushes so far, and what the turns generated.
    ghost var history: seq<Event>
    ghost var gen: seq<Generated>

    function Here(): Setting {
      Setting(products, customerIds, calendar)
    }

    ghost function Now(): Buffers
      reads this
    {
      Buffers(orderRows, orderItemRows, paymentRows, paymentAttemptRows, totalOrders, totalOrderItems,
              totalPayments, totalPaymentAttempts, log)
    }

    // The history explains the buffers, and every turn in it is sound and has ids of its own.
    ghost predicate Valid()
      reads this, seeder, seeder.rng
    {
      && seeder.rng.Valid() && 0 < |products| < WORDS && |customerIds| < WORDS
      && Now() == Run(history) && Turns(history) == RowsForAll(gen)
      && AllSound(gen, organizationId, products, customerIds) && Stamped(Turns(history), seeder.nextId)
    }

    constructor (
        seeder: Seeder, organizationId: nat, products: seq<Product>, customerIds: seq<nat>, calendar: DateDraw -> int)
      requires seeder.rng.Valid() && 0 < |products| < WORDS && |customerIds| < WORDS
      ensures Valid() && history == [] && gen == [] && this.seeder == seeder && this.organizationId == organizationId
      ensures this.products == products && this.customerIds == customerIds && this.calendar == calendar
    {
      this.seeder, this.organizationId := seeder, organizationId;
      this.products, this.customerIds, this.calendar := products, customerIds, calendar;
      orderRows, orderItemRows, paymentRows, paymentAttemptRows := [], [], [], [];
      totalOrders, totalOrderItems, totalPayments, totalPaymentAttempts := 0, 0, 0, 0;
      log, history, gen := [], [], [];
    }

    method DrawStatus() returns (status: OrderStatus)
      requires seeder.rng.Valid()
      modifies seeder.rng
      ensures seeder.rng.Valid() && seeder.rng.Word() == NextWord(old(seeder.rng.Word()))
      ensures StatusDrawn(status, seeder.rng.Word())
    {
      OrderWeightTotals();
      ghost var index;
      status, index := seeder.rng.RngPickWeighted(OrderStatuses(), OrderStatusWeights());
    }

    method DrawItemCount() returns (n: nat)
      requires seeder.rng.Valid()
      modifies seeder.rng
      ensures seeder.rng.Valid() && seeder.rng.Word() == NextWord(old(seeder.rng.Word()))
      ensures 1 <= n <= 5 && CountDrawn(n, seeder.rng.Word())
    {
      OrderWeightTotals();
      ghost var index;
      n, index := seeder.rng.RngPickWeighted(ItemCounts(), ItemCountWeights());
    }

    method DrawCustomer() returns (customerId: Option<nat>)
      requires seeder.rng.Valid() && |customerIds| < WORDS
      modifies seeder.rng
      ensures seeder.rng.Valid() && (customerId.Some? ==> customerId.value in customerIds)
      ensures CustomerDrawn(customerId, customerIds, old(seeder.rng.Word()))
      ensures seeder.rng.Word() == AfterCustomer(customerIds, old(seeder.rng.Word()))
    {
      customerId := None;
      var known := seeder.rng.RngBool(0.7);
      if known && |customerIds| > 0 {
        var id, _ := seeder.rng.RngPick(customerIds);
        customerId := Some(id);
      }
    }

    // randomOrderDate draws; the calendar turns the draws into a time.
    method RandomOrderDate() returns (t: int, ghost d: DateDraw)
      requires seeder.rng.Valid()
      modifies seeder.rng
      ensures seeder.rng.Valid() && seeder.rng.Word() == AfterDate(old(seeder.rng.Word()))
      ensures DateDrawn(d, old(seeder.rng.Word())) && t == calendar(d)
    {
      ghost var w := seeder.rng.Word();
      var season := seeder.rng.RngBool(0.3);
      var draw: DateDraw;
      if season {
        draw := DrawSeasonal(w);
      } else {
        draw := DrawAnytime(w);
      }
      t, d := calendar(draw), draw;
    }

    method DrawSeasonal(ghost w: int) returns (d: DateDraw)
      requires seeder.rng.Valid() && seeder.rng.Word() == NextWord(w) && Chance(NextWord(w), 0.3)
      modifies seeder.rng
      ensures seeder.rng.Valid() && seeder.rng.Word() == WordAfter(NextWord(w), 6) && DateDrawn(d, w)
    {
      var earlier := seeder.rng.RngBool(0.5);
      var month := seeder.rng.RngInt(9, 11);
      var day := seeder.rng.RngInt(1, 28);
      var hour := seeder.rng.RngInt(8, 21);
      var minute := seeder.rng.RngInt(0, 59);
      var second := seeder.rng.RngInt(0, 59);
      SixWords(NextWord(w));
      d := Seasonal(if earlier then 2 else 1, month, day, hour, minute, second);
    }

    method DrawAnytime(ghost w: int) returns (d: DateDraw)
      requires seeder.rng.Valid() && seeder.rng.Word() == NextWord(w) && !Chance(NextWord(w), 0.3)
      modifies seeder.rng
      ensures seeder.rng.Valid() && seeder.rng.Word() == WordAfter(NextWord(w), 4) && DateDrawn(d, w)
    {
      var share := seeder.rng.Next();
      var hour := seeder.rng.RngInt(8, 21);
      var minute := seeder.rng.RngInt(0, 59);
      var second := seeder.rng.RngInt(0, 59);
      SixWords(NextWord(w));
      d := Anytime(share, hour, minute, second);
    }

    method PushItems(orderId: nat, numItems: nat) returns (subtotal: int, ghost items: seq<Item>)
      requires seeder.rng.Valid() && 0 < |products| < WORDS
      modifies this`orderItemRows, seeder, seeder.rng
      ensures seeder.rng.Valid() && seeder.nextId >= old(seeder.nextId) && |items| == numItems
      ensures seeder.rng.Word() == WordAfter(old(seeder.rng.Word()), 2 * numItems)
      ensures LinesDrawn(items, products, old(seeder.rng.Word()))
      ensures Lines(items, orderId, organizationId, products, subtotal, old(seeder.nextId), seeder.nextId)
      ensures orderItemRows == old(orderItemRows) + ItemRows(items)
    {
      subtotal, items := 0, [];
      for it := 0 to numItems
        invariant seeder.rng.Valid() && seeder.nextId >= old(seeder.nextId) && |items| == it
        invariant seeder.rng.Word() == WordAfter(old(seeder.rng.Word()), 2 * it)
        invariant LinesDrawn(items, products, old(seeder.rng.Word()))
        invariant Lines(items, orderId, organizationId, products, subtotal, old(seeder.nextId), seeder.nextId)
        invariant orderItemRows == old(orderItemRows) + ItemRows(items)
      {
        var product, _ := seeder.rng.RngPick(products);
        var qty := seeder.rng.RngInt(1, 5);
        var lineSubtotal := qty * product.priceCents;
        var lineTax := OrderTax.TaxOf(lineSubtotal);
        var lineTotal := lineSubtotal + lineTax;
        ghost var hi := seeder.nextId;
        var id := seeder.FreshId();
        var item := Item(id, orderId, product, organizationId, qty, lineSubtotal, lineTax, lineTotal);
        OneMoreLineDrawn(items, item, products, old(seeder.rng.Word()));
        OneMoreLine(items, item, orderId, organizationId, products, subtotal, old(seeder.nextId), hi);
        subtotal := subtotal + lineSubtotal;
        orderItemRows := orderItemRows + [ItemCells(item)];
        items := items + [item];
      }
    }

    // One turn up to the pushes for the order itself.
    method DrawOrder(locationId: nat) returns (order: Order, ghost items: seq<Item>, bundle: Bundle)
      requires seeder.rng.Valid() && 0 < |products| < WORDS && |customerIds| < WORDS
      modifies this`orderItemRows, seeder, seeder.rng
      ensures seeder.rng.Valid() && order.locationId == locationId && order.id == old(seeder.nextId)
      ensures Sound(Generated(order, items, bundle), organizationId, products, customerIds)
      ensures IdsWithin(Generated(order, items, bundle), seeder.nextId)
      ensures orderItemRows == old(orderItemRows) + ItemRows(items)
      ensures TurnDrawn(Generated(order, items, bundle), Here(), old(seeder.rng.Word()),
                        seeder.rng.Word())
    {
      ghost var w := seeder.rng.Word();
      var orderId := seeder.FreshId();
      var status := DrawStatus();
      var customerId := DrawCustomer();
      var createdAt;
      ghost var d;
      createdAt, d := RandomOrderDate();
      var numItems := DrawItemCount();
      var subtotal;
      subtotal, items := PushItems(orderId, numItems);
      ghost var mid, scenario := seeder.nextId, Untouched;
      var tax := OrderTax.TaxOf(subtotal);
      var total := subtotal + tax;
      bundle, scenario := seeder.BuildSeedPaymentBundle(Args(orderId, organizationId, total, createdAt), status);
      order := Order(orderId, organizationId, customerId, locationId, bundle.orderStatus, subtotal, tax, total,
                     createdAt, bundle.orderUpdatedAt, bundle.placedAt, bundle.cancelledAt);
      NewTurn(Generated(order, items, bundle), mid, seeder.nextId, organizationId, products, customerIds);
      TurnIsDrawn(Generated(order, items, bundle), Here(), w, seeder.rng.Word(), d, scenario);
    }

    method PushOrder(order: Order, bundle: Bundle)
      modifies `orderRows, `paymentRows, `paymentAttemptRows
      ensures orderRows == old(orderRows) + [OrderCells(order)]
      ensures paymentRows == old(paymentRows) + PaymentRows(bundle)
      ensures paymentAttemptRows == old(paymentAttemptRows) + AttemptRows(bundle.attempts)
    {
      orderRows := orderRows + [OrderCells(order)];
      if bundle.payment.Some? {
        paymentRows := paymentRows + [PaymentCells(bundle.payment.value)];
      }
      if |bundle.attempts| > 0 {
        paymentAttemptRows := paymentAttemptRows + AttemptRows(bundle.attempts);
      }
    }

    method DrawAndPush(locationId: nat) returns (ghost g: Generated)
      requires seeder.rng.Valid() && 0 < |products| < WORDS && |customerIds| < WORDS
      modifies `orderRows, `orderItemRows, `paymentRows, `paymentAttemptRows, seeder, seeder.rng
      ensures seeder.rng.Valid() && g.order.locationId == locationId && g.order.id == old(seeder.nextId)
      ensures Sound(g, organizationId, products, customerIds) && IdsWithin(g, seeder.nextId)
      ensures TurnDrawn(g, Here(), old(seeder.rng.Word()), seeder.rng.Word())
      ensures Now() == AfterTurn(old(Now()), RowsFor(g))
    {
      ghost var before := Now();
      var order, bundle;
      ghost var items;
      order, items, bundle := DrawOrder(locationId);
      PushOrder(order, bundle);
      g := Generated(order, items, bundle);
      PushedTurn(before, Now(), g);
    }

    method GenerateOrder(locationId: nat) returns (ghost g: Generated)
      requires Valid()
      modifies this, seeder, seeder.rng
      ensures Valid() && gen == old(gen) + [g] && history == old(history) + [Turn(RowsFor(g))]
      ensures g.order.locationId == locationId
      ensures TurnDrawn(g, Here(), old(seeder.rng.Word()), seeder.rng.Word())
    {
      ghost var before := Now();
      g := DrawAndPush(locationId);
      NextTurn(history, gen, g, before, Now(), seeder.nextId, organizationId, products, customerIds);
      history, gen := history + [Turn(RowsFor(g))], gen + [g];
    }

    method InsertRows(t: Table, rows: seq<seq<Cell>>) returns (inserted: nat)
      requires Rectangular(rows, Width(t))
      modifies this`log
      ensures log == old(log) + Statements(t, rows) && inserted == |rows|
    {
      RowWidthOf(t);
      var queries;
      inserted, queries := BulkInsert(TargetOf(t), rows);
      log := log + queries;
    }

    // Insert, count and empty one buffer.
    method InsertOrders()
      requires Rectangular(orderRows, 13)
      modifies `log, `orderRows, `totalOrders
      ensures log == old(log) + Statements(ORDERS, old(orderRows)) && orderRows == []
      ensures totalOrders == old(totalOrders) + |old(orderRows)|
    {
      var n := InsertRows(ORDERS, orderRows);
      totalOrders := totalOrders + |orderRows|;
      orderRows := [];
    }

    method InsertItems()
      requires Rectangular(orderItemRows, 12)
      modifies `log, `orderItemRows, `totalOrderItems
      ensures log == old(log) + Statements(ITEMS, old(orderItemRows)) && orderItemRows == []
      ensures totalOrderItems == old(totalOrderItems) + |old(orderItemRows)|
    {
      var n := InsertRows(ITEMS, orderItemRows);
      totalOrderItems := totalOrderItems + |orderItemRows|;
      orderItemRows := [];
    }

    method InsertPayments()
      requires Rectangular(paymentRows, 18)
      modifies `log, `paymentRows, `totalPayments
      ensures log == old(log) + Statements(PAYMENTS, old(paymentRows)) && paymentRows == []
      ensures totalPayments == old(totalPayments) + |old(paymentRows)|
    {
      NoRows(PAYMENTS, log);
      if |paymentRows| > 0 {
        var n := InsertRows(PAYMENTS, paymentRows);
        totalPayments := totalPayments + |paymentRows|;
        paymentRows := [];
      }
    }

    method InsertAttempts()
      requires Rectangular(paymentAttemptRows, 10)
      modifies `log, `paymentAttemptRows, `totalPaymentAttempts
      ensures log == old(log) + Statements(ATTEMPTS, old(paymentAttemptRows)) && paymentAttemptRows == []
      ensures totalPaymentAttempts == old(totalPaymentAttempts) + |old(paymentAttemptRows)|
    {
      NoRows(ATTEMPTS, log);
      if |paymentAttemptRows| > 0 {
        var n := InsertRows(ATTEMPTS, paymentAttemptRows);
        totalPaymentAttempts := totalPaymentAttempts + |paymentAttemptRows|;
        paymentAttemptRows := [];
      }
    }

    // The four inserts of a flush, parents first.
    method FlushBuffers()
      requires |orderRows| > 0
      requires Rectangular(orderRows, 13) && Rectangular(orderItemRows, 12)
      requires Rectangular(paymentRows, 18) && Rectangular(paymentAttemptRows, 10)
      modifies `log, `orderRows, `orderItemRows, `paymentRows, `paymentAttemptRows
      modifies `totalOrders, `totalOrderItems, `totalPayments, `totalPaymentAttempts
      ensures Now() == AfterFlush(old(Now()))
    {
      ghost var before := Now();
      InsertOrders();
      InsertItems();
      InsertPayments();
      InsertAttempts();
      FlushedAll(before, Now(), Statements(ORDERS, before.orderRows), Statements(ITEMS, before.orderItemRows),
                 Statements(PAYMENTS, before.paymentRows), Statements(ATTEMPTS, before.paymentAttemptRows));
    }

    /** The early return leaves children behind only when there are none. */
    method FlushOrderBatch()
      requires Valid()
      modifies this
      ensures Valid() && history == old(history) + [Flush] && gen == old(gen)
    {
      SoundTurnsFit(gen, organizationId, products, customerIds);
      RunFlush(history);
      PendingWidths(history);
      if |orderRows| == 0 {
        history := history + [Flush];
        return;
      }
      FlushBuffers();
      history := history + [Flush];
    }

    method NextOrder(locationId: nat) returns (ghost g: Generated)
      requires Valid() && Batched(history) && |Pending(history)| < BATCH_SIZE
      modifies this, seeder, seeder.rng
      ensures Valid() && Batched(history) && |Pending(history)| < BATCH_SIZE && gen == old(gen) + [g]
      ensures g.order.locationId == locationId
      ensures TurnDrawn(g, Here(), old(seeder.rng.Word()), seeder.rng.Word())
    {
      g := GenerateOrder(locationId);
      BatchedTurn(old(history), RowsFor(g));
      OrdersPending(history);
      if |orderRows| >= BATCH_SIZE {
        BatchedFlush(history);
        FlushOrderBatch();
      }
    }

    method SeedTurns(locationId: nat, numOrders: nat) returns (ghost block: seq<Generated>, ghost words: seq<int>)
      requires Valid() && Batched(history) && |Pending(history)| < BATCH_SIZE
      modifies this, seeder, seeder.rng
      ensures Valid() && Batched(history) && gen == old(gen) + block && |block| == numOrders
      ensures InBlock(block, words, locationId, Here(), old(seeder.rng.Word()), seeder.rng.Word())
    {
      block, words := [], [seeder.rng.Word()];
      for o := 0 to numOrders
        invariant Valid() && Batched(history) && |Pending(history)| < BATCH_SIZE
        invariant gen == old(gen) + block && |block| == o
        invariant InBlock(block, words, locationId, Here(), old(seeder.rng.Word()), seeder.rng.Word())
      {
        ghost var u := seeder.rng.Word();
        ghost var g := NextOrder(locationId);
        NextInBlock(old(gen), block, words, g, locationId, Here(), old(seeder.rng.Word()), u, seeder.rng.Word());
        block, words := block + [g], words + [seeder.rng.Word()];
      }
    }

    method SeedLocation(locationId: nat, numOrders: nat) returns (ghost block: seq<Generated>, ghost words: seq<int>)
      requires Valid() && Batched(history) && |Pending(history)| < BATCH_SIZE
      modifies this, seeder, seeder.rng
      ensures Valid() && Batched(history) && Flushed(history) && gen == old(gen) + block && |block| == numOrders
      ensures InBlock(block, words, locationId, Here(), old(seeder.rng.Word()), seeder.rng.Word())
    {
      block, words := SeedTurns(locationId, numOrders);
      BatchedFlush(history);
      FlushOrderBatch();
    }

    // The body of the loop over the locations.
    method SeedNextLocation(locationId: nat, min: int, max: int)
        returns (ghost block: seq<Generated>, ghost words: seq<int>)
      requires Valid() && Batched(history) && |Pending(history)| < BATCH_SIZE
      requires 0 <= min <= max < 0x8_0000_0000_0000
      modifies this, seeder, seeder.rng
      ensures Valid() && Batched(history) && Flushed(history) && gen == old(gen) + block
      ensures LocationDrawn(block, words, locationId, min, max, Here(), old(seeder.rng.Word()))
      ensures words[|words| - 1] == seeder.rng.Word()
    {
      var numOrders := seeder.rng.RngInt(min, max);
      block, words := SeedLocation(locationId, numOrders);
    }

    /**
     * Every location gets its drawn number of orders, in turn; each row is
     * inserted once, and no statement ever broke a foreign key.
     */
    method SeedOrders(locations: seq<nat>, min: int, max: int)
        returns (ghost blocks: seq<seq<Generated>>, ghost runs: seq<seq<int>>)
      requires Valid() && 0 <= min <= max < 0x8_0000_0000_0000
      requires history == [] && gen == []
      modifies this, seeder, seeder.rng
      ensures Valid() && Batched(history) && gen == Flatten(blocks)
      ensures SeededSo(blocks, runs, locations, min, max, Here(), old(seeder.rng.Word()), seeder.rng.Word())
      ensures Referential(log)
      ensures forall t: Table {:trigger AllOf(RowsForAll(gen), t)} :: TableRows(log, t) == AllOf(RowsForAll(gen), t)
      ensures LocationCells(TableRows(log, ORDERS)) == Flatten(LocationBlocks(blocks, locations))
    {
      blocks, runs := [], [];
      for l := 0 to |locations|
        invariant Valid() && Batched(history) && (if l == 0 then history == [] else Flushed(history))
        invariant Pending(history) == []
        invariant gen == Flatten(blocks)
        invariant SeededSo(blocks, runs, locations[..l], min, max, Here(), old(seeder.rng.Word()), seeder.rng.Word())
      {
        ghost var block, words := SeedNextLocation(locations[l], min, max);
        FlattenLast(blocks, block);
        NextLocation(blocks, runs, block, words, locations, l, min, max, Here(), old(seeder.rng.Word()));
        blocks, runs := blocks + [block], runs + [words];
      }
      assert locations[..|locations|] == locations;
      SoundTurnsFit(gen, organizationId, products, customerIds);
      AllInserted(history, gen, log);
      CellsInBlocks(blocks, runs, locations, min, max, Here(), old(seeder.rng.Word()), seeder.rng.Word());
    }
  }

  // No flush carries more orders than fill a batch, and no more are waiting.
  ghost predicate Batched(history: seq<Event>) {
    |Pending(history)| <= BATCH_SIZE && forall b :: b in SeedLog.Batches(history) ==> |b| <= BATCH_SIZE
  }

  lemma BatchedTurn(history: seq<Event>, r: TurnRows)
    requires Batched(history) && |Pending(history)| < BATCH_SIZE
    ensures Batched(history + [Turn(r)]) && |Pending(history + [Turn(r)])| == |Pending(history)| + 1
  {
    assert (history + [Turn(r)])[..|history|] == history;
  }

  lemma BatchedFlush(history: seq<Event>)
    requires Batched(history)
    ensures Batched(history + [Flush]) && Pending(history + [Flush]) == []
  {
    assert (history + [Flush])[..|history|] == history;
  }

  lemma OrdersPending(history: seq<Event>)
    ensures |Run(history).orderRows| == |Pending(history)|
  {
    BuffersHoldPending(history, ORDERS);
    OrderCount(Pending(history));
  }

  // The turns of one location so far, from word w to word w'.
  ghost predicate InBlock(
    block: seq<Generated>, words: seq<int>, locationId: nat, c: Setting, w: int, w': int)
  {
    AllAt(block, locationId) && TurnsDrawn(block, words, c) && words[0] == w && words[|words| - 1] == w'
  }

  lemma NextInBlock(
    before: seq<Generated>, block: seq<Generated>, words: seq<int>, g: Generated, locationId: nat, c: Setting, w: int,
    u: int, w': int)
    requires InBlock(block, words, locationId, c, w, u) && g.order.locationId == locationId && TurnDrawn(g, c, u, w')
    ensures InBlock(block + [g], words + [w'], locationId, c, w, w')
    ensures before + block + [g] == before + (block + [g])
  {
  }

  lemma BeforeStays(runs: seq<seq<int>>, words: seq<int>, l: nat, w: int)
    requires l <= |runs|
    ensures Before(runs + [words], l, w) == Before(runs, l, w)
    ensures words != [] ==> Before(runs + [words], |runs| + 1, w) == words[|words| - 1]
  {
  }

  lemma NextLocation(
    blocks: seq<seq<Generated>>, runs: seq<seq<int>>, block: seq<Generated>, words: seq<int>, locations: seq<nat>,
    l: nat, min: int, max: int, c: Setting, w: int)
    requires l < |locations| && min <= max
    requires SeededSo(blocks, runs, locations[..l], min, max, c, w, Before(runs, |runs|, w))
    requires LocationDrawn(block, words, locations[l], min, max, c, Before(runs, |runs|, w))
    ensures SeededSo(blocks + [block], runs + [words], locations[..l + 1], min, max, c, w, words[|words| - 1])
  {
    var all, places := blocks + [block], locations[..l + 1];
    forall k | 0 <= k <= l
      ensures LocationDrawn(all[k], (runs + [words])[k], places[k], min, max, c, Before(runs + [words], k, w))
    {
      BeforeStays(runs, words, k, w);
      if k < l {
        assert LocationDrawn(blocks[k], runs[k], locations[..l][k], min, max, c, Before(runs, k, w));
      }
    }
    BeforeStays(runs, words, l, w);
  }

  // Each location's id, as often as it has orders.
  ghost function LocationBlocks(blocks: seq<seq<Generated>>, locations: seq<nat>): seq<seq<Cell>>
    requires |blocks| == |locations|
  {
    seq(|blocks|, l requires 0 <= l < |blocks| => seq(|blocks[l]|, _ => Ref(locations[l])))
  }

  // The cells of the locationId column.
  ghost function LocationCells(rows: seq<Row>): seq<Cell> {
    seq(|rows|, k requires 0 <= k < |rows| => if |rows[k]| > 3 then rows[k][3] else Null)
  }

  ghost function LocationRefs(gen: seq<Generated>): seq<Cell> {
    seq(|gen|, k requires 0 <= k < |gen| => Ref(gen[k].order.locationId))
  }

  lemma {:induction false} OrderRowsAre(gen: seq<Generated>)
    ensures |AllOf(RowsForAll(gen), ORDERS)| == |gen|
    ensures forall k :: 0 <= k < |gen| ==> AllOf(RowsForAll(gen), ORDERS)[k] == OrderCells(gen[k].order)
  {
    if gen != [] {
      OrderRowsAre(gen[..|gen| - 1]);
      assert RowsForAll(gen)[..|gen| - 1] == RowsForAll(gen[..|gen| - 1]);
    }
  }

  lemma LocationCellsAre(gen: seq<Generated>)
    ensures LocationCells(AllOf(RowsForAll(gen), ORDERS)) == LocationRefs(gen)
  {
    OrderRowsAre(gen);
  }

  lemma CellsInBlocks(
    blocks: seq<seq<Generated>>, runs: seq<seq<int>>, locations: seq<nat>, min: int, max: int, c: Setting, w: int,
    w': int)
    requires min <= max && SeededSo(blocks, runs, locations, min, max, c, w, w')
    ensures LocationCells(AllOf(RowsForAll(Flatten(blocks)), ORDERS)) == Flatten(LocationBlocks(blocks, locations))
  {
    LocationCellsAre(Flatten(blocks));
    forall l | 0 <= l < |blocks| ensures AllAt(blocks[l], locations[l]) {
      assert LocationDrawn(blocks[l], runs[l], locations[l], min, max, c, Before(runs, l, w));
    }
    RefsInBlocks(blocks, locations);
  }

  lemma {:induction false} RefsInBlocks(blocks: seq<seq<Generated>>, locations: seq<nat>)
    requires |blocks| == |locations| && forall l :: 0 <= l < |blocks| ==> AllAt(blocks[l], locations[l])
    ensures LocationRefs(Flatten(blocks)) == Flatten(LocationBlocks(blocks, locations))
  {
    if blocks != [] {
      var n := |blocks| - 1;
      RefsInBlocks(blocks[..n], locations[..n]);
      assert LocationBlocks(blocks, locations)[..n] == LocationBlocks(blocks[..n], locations[..n]);
      assert LocationRefs(blocks[n]) == LocationBlocks(blocks, locations)[n];
      RefsConcat(Flatten(blocks[..n]), blocks[n]);
    }
  }

  lemma RefsConcat(a: seq<Generated>, b: seq<Generated>)
    ensures LocationRefs(a + b) == LocationRefs(a) + LocationRefs(b)
  {
  }

  lemma AllInserted(history: seq<Event>, gen: seq<Generated>, log: seq<Query<Cell>>)
    requires log == Run(history).log && Turns(history) == RowsForAll(gen) && AllFit(RowsForAll(gen))
    requires history == [] || Flushed(history)
    ensures Referential(log)
    ensures forall t: Table {:trigger AllOf(RowsForAll(gen), t)} :: TableRows(log, t) == AllOf(RowsForAll(gen), t)
  {
    InsertsKeepIntegrityAndLoseNothing(history, ORDERS);
    forall t: Table {:trigger AllOf(RowsForAll(gen), t)} ensures TableRows(log, t) == AllOf(RowsForAll(gen), t) {
      InsertsKeepIntegrityAndLoseNothing(history, t);
      BuffersHoldPending(history, t);
    }
  }

  ghost predicate Flushed(history: seq<Event>) {
    history != [] && history[|history| - 1] == Flush
  }

  lemma RunTurn(history: seq<Event>, g: TurnRows)
    ensures Run(history + [Turn(g)]) == AfterTurn(Run(history), g)
    ensures Turns(history + [Turn(g)]) == Turns(history) + [g]
  {
  }

  lemma RunFlush(history: seq<Event>)
    ensures Run(history + [Flush]) == AfterFlush(Run(history))
    ensures Turns(history + [Flush]) == Turns(history)
  {
  }

  ghost predicate AllSound(
    gen: seq<Generated>, organizationId: nat, products: seq<Product>, customerIds: seq<nat>)
  {
    forall k {:trigger Sound(gen[k], organizationId, products, customerIds)} ::
      0 <= k < |gen| ==> Sound(gen[k], organizationId, products, customerIds)
  }

  lemma RowsForOneMore(gen: seq<Generated>, g: Generated)
    ensures RowsForAll(gen + [g]) == RowsForAll(gen) + [RowsFor(g)]
  {
  }

  lemma OneMoreSound(
    gen: seq<Generated>, g: Generated, organizationId: nat, products: seq<Product>, customerIds: seq<nat>)
    requires AllSound(gen, organizationId, products, customerIds) && Sound(g, organizationId, products, customerIds)
    ensures AllSound(gen + [g], organizationId, products, customerIds)
  {
  }

  lemma NextTurn(
    history: seq<Event>, gen: seq<Generated>, g: Generated, before: Buffers, after: Buffers, hi: nat,
    organizationId: nat, products: seq<Product>, customerIds: seq<nat>)
    requires before == Run(history) && Turns(history) == RowsForAll(gen)
    requires AllSound(gen, organizationId, products, customerIds) && Stamped(Turns(history), g.order.id)
    requires Sound(g, organizationId, products, customerIds) && IdsWithin(g, hi)
    requires after == AfterTurn(before, RowsFor(g))
    ensures after == Run(history + [Turn(RowsFor(g))])
    ensures Turns(history + [Turn(RowsFor(g))]) == RowsForAll(gen + [g])
    ensures AllSound(gen + [g], organizationId, products, customerIds)
    ensures Stamped(Turns(history + [Turn(RowsFor(g))]), hi)
  {
    RunTurn(history, RowsFor(g));
    RowsForOneMore(gen, g);
    OneMoreSound(gen, g, organizationId, products, customerIds);
    assert OwnIds(RowsFor(g), g.order.id, hi) by { IdsAreOwn(g, hi); }
    StampNext(Turns(history), RowsFor(g), g.order.id, hi);
  }

  lemma PushedTurn(before: Buffers, after: Buffers, g: Generated)
    requires after.orderRows == before.orderRows + [OrderCells(g.order)]
    requires after.orderItemRows == before.orderItemRows + ItemRows(g.items)
    requires after.paymentRows == before.paymentRows + PaymentRows(g.bundle)
    requires after.paymentAttemptRows == before.paymentAttemptRows + AttemptRows(g.bundle.attempts)
    requires after.log == before.log && after.totalOrders == before.totalOrders
    requires after.totalOrderItems == before.totalOrderItems && after.totalPayments == before.totalPayments
    requires after.totalPaymentAttempts == before.totalPaymentAttempts
    ensures after == AfterTurn(before, RowsFor(g))
  {
  }

  lemma FlushedAll(
    before: Buffers, after: Buffers, o: seq<Query<Cell>>, i: seq<Query<Cell>>, p: seq<Query<Cell>>,
    a: seq<Query<Cell>>)
    requires before.orderRows != []
    requires o == Statements(ORDERS, before.orderRows) && i == Statements(ITEMS, before.orderItemRows)
    requires p == Statements(PAYMENTS, before.paymentRows) && a == Statements(ATTEMPTS, before.paymentAttemptRows)
    requires after.log == before.log + o + i + p + a
    requires after.orderRows == after.orderItemRows == after.paymentRows == after.paymentAttemptRows == []
    requires after.totalOrders == before.totalOrders + |before.orderRows|
    requires after.totalOrderItems == before.totalOrderItems + |before.orderItemRows|
    requires after.totalPayments == before.totalPayments + |before.paymentRows|
    requires after.totalPaymentAttempts == before.totalPaymentAttempts + |before.paymentAttemptRows|
    ensures after == AfterFlush(before)
  {
  }

  lemma StampNext(turns: seq<TurnRows>, r: TurnRows, lo: nat, hi: nat)
    requires Stamped(turns, lo) && OwnIds(r, lo, hi)
    ensures Stamped(turns + [r], hi)
  {
    var all := turns + [r];
    assert all[..|all| - 1] == turns;
    assert OwnIds(all[|all| - 1], lo, hi) && Stamped(all[..|all| - 1], lo);
  }

  lemma SoundTurnsFit(
    gen: seq<Generated>, organizationId: nat, products: seq<Product>, customerIds: seq<nat>)
    requires AllSound(gen, organizationId, products, customerIds)
    ensures AllFit(RowsForAll(gen))
  {
    forall k | 0 <= k < |gen| ensures Fit(RowsFor(gen[k])) {
      assert Sound(gen[k], organizationId, products, customerIds);
      JoinedFits(gen[k]);
    }
  }

  lemma PendingWidths(history: seq<Event>)
    requires AllFit(Turns(history))
    ensures Rectangular(Run(history).orderRows, 13) && Rectangular(Run(history).orderItemRows, 12)
    ensures Rectangular(Run(history).paymentRows, 18) && Rectangular(Run(history).paymentAttemptRows, 10)
  {
    PendingFits(history);
    forall t: Table ensures Rectangular(Run(history).Of(t), Width(t)) {
      BuffersHoldPending(history, t);
      AllRectangular(Pending(history), t);
    }
    assert Run(history).Of(ORDERS) == Run(history).orderRows && Run(history).Of(ITEMS) == Run(history).orderItemRows;
    assert Run(history).Of(PAYMENTS) == Run(history).paymentRows;
    assert Run(history).Of(ATTEMPTS) == Run(history).paymentAttemptRows;
  }

  lemma NoRows(t: Table, log: seq<Query<Cell>>)
    ensures log + Statements(t, []) == log
  {
  }

  lemma TurnIsDrawn(g: Generated, c: Setting, w: int, w': int, d: DateDraw, s: Scenario)
    requires StatusDrawn(g.order.status, NextWord(w)) && CustomerDrawn(g.order.customerId, c.customerIds, NextWord(w))
    requires DateDrawn(d, DateWord(c.customerIds, w)) && g.order.createdAt == c.calendar(d)
    requires CountDrawn(|g.items|, CountWord(c.customerIds, w))
    requires LinesDrawn(g.items, c.products, CountWord(c.customerIds, w))
    requires var u := BundleWord(c.customerIds, |g.items|, w);
             && DrawnSo(g.bundle, g.order.createdAt, g.order.status, s, u) && Shape(g.bundle, s)
             && w' == AfterBundle(g.order.status, s, Via(g.bundle), u)
    ensures TurnDrawn(g, c, w, w')
  {
  }

  // A turn of the loop is sound once its parts are.
  lemma NewTurn(
    g: Generated, mid: nat, hi: nat, organizationId: nat, products: seq<Product>, customerIds: seq<nat>)
    requires Lines(g.items, g.order.id, organizationId, products, g.order.subtotal, g.order.id + 1, mid)
    requires 1 <= |g.items| <= 5 && g.order.id < mid <= hi && FreshIds(g.bundle, mid, hi)
    requires WellFormed(g.bundle, Args(g.order.id, organizationId, g.order.total, g.order.createdAt))
    requires g.order.organizationId == organizationId
    requires g.order.customerId.Some? ==> g.order.customerId.value in customerIds
    requires g.order.tax == OrderTax.TaxOf(g.order.subtotal) && g.order.total == g.order.subtotal + g.order.tax
    requires g.order.status == g.bundle.orderStatus && g.order.updatedAt == g.bundle.orderUpdatedAt
    requires g.order.placedAt == g.bundle.placedAt && g.order.cancelledAt == g.bundle.cancelledAt
    ensures Sound(g, organizationId, products, customerIds) && IdsWithin(g, hi)
  {
  }
}

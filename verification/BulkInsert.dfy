/**
 * The seed's batched INSERT builder (backend/prisma/seed.demo.ts:1111-1151):
 * rows are cut into batches, and every cell of a batch becomes a numbered
 * placeholder and a bound parameter.
 */
module BulkInsert {
  import opened Arithmetic
  import opened Wrappers

  // "$index" or "$index::"enumType""
  datatype Slot = Slot(index: nat, enumType: Option<string>)

  // What an INSERT names besides its rows.
  datatype Target = Target(table: string, columns: seq<string>, castMap: map<string, string>, conflict: string)

  datatype Query<V> = Query(target: Target, values: seq<seq<Slot>>, params: seq<V>)

  const PARAMETER_CAP: int := 65535
  const BATCH_SIZE: nat := 4000

  // The enum type a column's values are cast to; an empty name casts to nothing.
  function CastOf(t: Target, column: string): Option<string> {
    if column in t.castMap && t.castMap[column] != "" then Some(t.castMap[column]) else None
  }

  // The first count slots of a row, numbered from base + 1.
  function Slots(t: Target, base: nat, count: nat): (slots: seq<Slot>)
    requires count <= |t.columns|
    ensures |slots| == count
  {
    if count == 0 then [] else Slots(t, base, count - 1) + [Slot(base + count, CastOf(t, t.columns[count - 1]))]
  }

  function Flatten<V>(rows: seq<seq<V>>): seq<V> {
    if rows == [] then [] else Flatten(rows[..|rows| - 1]) + rows[|rows| - 1]
  }

  // One tuple of slots per row, numbered on from row to row.
  function Tuples<V>(t: Target, rows: seq<seq<V>>): (values: seq<seq<Slot>>)
    ensures |values| == |rows|
  {
    if rows == [] then []
    else
      var before := rows[..|rows| - 1];
      Tuples(t, before) + [Slots(t, |Flatten(before)|, |t.columns|)]
  }

  // The statement for one batch.
  function QueryFor<V>(t: Target, batch: seq<seq<V>>): Query<V> {
    Query(t, Tuples(t, batch), Flatten(batch))
  }

  // The rows cut into batches.
  function Batches<V>(rows: seq<seq<V>>, batchSize: nat): seq<seq<seq<V>>>
    requires batchSize > 0
  {
    if rows == [] then []
    else
      var n := Min(batchSize, |rows|);
      [rows[..n]] + Batches(rows[n..], batchSize)
  }

  // The statements for all rows, batch by batch.
  function Queries<V>(t: Target, rows: seq<seq<V>>, batchSize: nat): seq<Query<V>>
    requires batchSize > 0
  {
    var batches := Batches(rows, batchSize);
    seq(|batches|, k requires 0 <= k < |batches| => QueryFor(t, batches[k]))
  }

  lemma FirstQuery<V>(t: Target, rows: seq<seq<V>>, batchSize: nat)
    requires batchSize > 0 && rows != []
    ensures var n := Min(batchSize, |rows|);
            Queries(t, rows, batchSize) == [QueryFor(t, rows[..n])] + Queries(t, rows[n..], batchSize)
  {
  }

  ghost predicate Rectangular<V>(rows: seq<seq<V>>, width: nat) {
    forall i :: 0 <= i < |rows| ==> |rows[i]| == width
  }

  method BindRow<V>(t: Target, row: seq<V>, pIdx: nat, params: seq<V>)
      returns (slots: seq<Slot>, pIdx': nat, params': seq<V>)
    requires |row| == |t.columns| && pIdx == |params| + 1
    ensures slots == Slots(t, |params|, |t.columns|)
    ensures params' == params + row && pIdx' == |params'| + 1
  {
    slots, pIdx', params' := [], pIdx, params;
    for c := 0 to |t.columns|
      invariant slots == Slots(t, |params|, c)
      invariant params' == params + row[..c] && pIdx' == |params'| + 1
    {
      slots := slots + [Slot(pIdx', CastOf(t, t.columns[c]))];
      pIdx' := pIdx' + 1;
      params' := params' + [row[c]];
    }
  }

  method BuildQuery<V>(t: Target, batch: seq<seq<V>>) returns (q: Query<V>)
    requires Rectangular(batch, |t.columns|)
    ensures q == QueryFor(t, batch)
  {
    var params: seq<V>, pIdx, placeholders := [], 1, [];
    for i := 0 to |batch|
      invariant params == Flatten(batch[..i]) && pIdx == |params| + 1
      invariant placeholders == Tuples(t, batch[..i])
    {
      assert batch[..i + 1][..i] == batch[..i];
      var slots;
      slots, pIdx, params := BindRow(t, batch[i], pIdx, params);
      placeholders := placeholders + [slots];
    }
    assert batch[..|batch|] == batch;
    q := Query(t, placeholders, params);
  }

  method BulkInsert<V>(t: Target, rows: seq<seq<V>>, batchSize: nat := BATCH_SIZE)
      returns (inserted: nat, queries: seq<Query<V>>)
    requires Rectangular(rows, |t.columns|) && batchSize > 0
    ensures inserted == |rows|
    ensures queries == Queries(t, rows, batchSize)
  {
    inserted, queries := 0, [];
    if |rows| == 0 { return; }
    var offset := 0;
    ghost var todo := Queries(t, rows, batchSize);
    assert rows[0..] == rows;
    while offset < |rows|
      invariant inserted == Min(offset, |rows|)
      invariant todo == Queries(t, rows[inserted..], batchSize)
      invariant queries + todo == Queries(t, rows, batchSize)
    {
      var end := Min(offset + batchSize, |rows|);
      var batch := rows[offset..end];
      BatchStep(t, rows, batchSize, offset, end);
      var q := BuildQuery(t, batch);
      AppendQuery(queries, q, Queries(t, rows[end..], batchSize), Queries(t, rows, batchSize));
      todo := Queries(t, rows[end..], batchSize);
      queries := queries + [q];
      inserted := inserted + |batch|;
      offset := offset + batchSize;
    }
    assert rows[|rows|..] == [];
  }

  lemma AppendQuery<V>(queries: seq<Query<V>>, q: Query<V>, todo: seq<Query<V>>, all: seq<Query<V>>)
    requires queries + ([q] + todo) == all
    ensures queries + [q] + todo == all
  {
  }

  lemma BatchStep<V>(t: Target, rows: seq<seq<V>>, batchSize: nat, offset: nat, end: nat)
    requires batchSize > 0 && offset < |rows| && end == Min(offset + batchSize, |rows|)
    ensures forall width :: Rectangular(rows, width) ==> Rectangular(rows[offset..end], width)
    ensures Queries(t, rows[offset..], batchSize) ==
            [QueryFor(t, rows[offset..end])] + Queries(t, rows[end..], batchSize)
  {
    FirstQuery(t, rows[offset..], batchSize);
    assert rows[offset..][..end - offset] == rows[offset..end];
    assert rows[offset..][end - offset..] == rows[end..];
  }

  // A slot stands for the parameter of its number; one without a parameter for nothing.
  ghost function Cell<V>(slot: Slot, params: seq<V>): seq<V> {
    if 1 <= slot.index <= |params| then [params[slot.index - 1]] else []
  }

  ghost function Bound<V>(slots: seq<Slot>, params: seq<V>): seq<V> {
    if slots == [] then []
    else Bound(slots[..|slots| - 1], params) + Cell(slots[|slots| - 1], params)
  }

  // What the database inserts for a statement.
  ghost function RowsOf<V>(values: seq<seq<Slot>>, params: seq<V>): seq<seq<V>> {
    if values == [] then []
    else RowsOf(values[..|values| - 1], params) + [Bound(values[|values| - 1], params)]
  }

  ghost function Inserted<V>(q: Query<V>): seq<seq<V>> {
    RowsOf(q.values, q.params)
  }

  lemma BoundLast<V>(slots: seq<Slot>, slot: Slot, params: seq<V>)
    ensures Bound(slots + [slot], params) == Bound(slots, params) + Cell(slot, params)
  {
  }

  // Slots numbered from base + 1 stand for the parameters from base on.
  lemma {:induction false} SlotsStandFor<V>(t: Target, base: nat, count: nat, params: seq<V>)
    requires count <= |t.columns| && base + count <= |params|
    ensures Bound(Slots(t, base, count), params) == params[base..base + count]
  {
    if count > 0 {
      SlotsStandFor(t, base, count - 1, params);
      OneMoreSlot(Slots(t, base, count - 1), Slots(t, base, count)[count - 1], params, base, base + count);
    }
  }

  lemma OneMoreSlot<V>(slots: seq<Slot>, slot: Slot, params: seq<V>, lo: nat, hi: nat)
    requires lo < hi <= |params| && slot.index == hi && Bound(slots, params) == params[lo..hi - 1]
    ensures Bound(slots + [slot], params) == params[lo..hi]
  {
    BoundLast(slots, slot, params);
    OneMoreParam(params, lo, hi);
  }

  lemma OneMoreParam<V>(params: seq<V>, lo: nat, hi: nat)
    requires lo < hi <= |params|
    ensures params[lo..hi] == params[lo..hi - 1] + [params[hi - 1]]
  {
  }

  lemma RowsOfLast<V>(values: seq<seq<Slot>>, slots: seq<Slot>, params: seq<V>)
    ensures RowsOf(values + [slots], params) == RowsOf(values, params) + [Bound(slots, params)]
  {
  }

  lemma FlattenLast<V>(rows: seq<seq<V>>, last: seq<V>)
    ensures Flatten(rows + [last]) == Flatten(rows) + last
  {
  }

  lemma TuplesLast<V>(t: Target, rows: seq<seq<V>>, last: seq<V>)
    ensures Tuples(t, rows + [last]) == Tuples(t, rows) + [Slots(t, |Flatten(rows)|, |t.columns|)]
  {
  }

  // One more row, whose cells follow those of the rows before.
  lemma TuplesStep<V>(t: Target, before: seq<seq<V>>, last: seq<V>, params: seq<V>, base: nat)
    requires |last| == |t.columns| && base == |Flatten(before)| && base + |last| <= |params|
    requires params[base..base + |last|] == last
    ensures RowsOf(Tuples(t, before + [last]), params) == RowsOf(Tuples(t, before), params) + [last]
  {
    TuplesLast(t, before, last);
    SlotsStandFor(t, base, |last|, params);
    RowsOfLast(Tuples(t, before), Slots(t, base, |last|), params);
  }

  lemma {:induction false} TuplesStandFor<V>(t: Target, rows: seq<seq<V>>, more: seq<V>)
    requires Rectangular(rows, |t.columns|)
    ensures RowsOf(Tuples(t, rows), Flatten(rows) + more) == rows
  {
    if rows != [] {
      var before, last := rows[..|rows| - 1], rows[|rows| - 1];
      assert rows == before + [last];
      FlattenLast(before, last);
      var params := Flatten(before) + (last + more);
      assert Flatten(rows) + more == params;
      TuplesStandFor(t, before, last + more);
      TuplesStep(t, before, last, params, |Flatten(before)|);
    }
  }

  /** A statement inserts exactly the batch it was built from, cell by cell. */
  lemma QueryInsertsBatch<V>(t: Target, batch: seq<seq<V>>)
    requires Rectangular(batch, |t.columns|)
    ensures Inserted(QueryFor(t, batch)) == batch
  {
    TuplesStandFor(t, batch, []);
    assert Flatten(batch) + [] == Flatten(batch);
  }

  // The type a slot at a column carries: the one the cast map gives the column's name, if any.
  ghost predicate CastAsMapped(t: Target, c: nat, enumType: Option<string>)
    requires c < |t.columns|
  {
    && (enumType.Some? <==> t.columns[c] in t.castMap && t.castMap[t.columns[c]] != "")
    && (enumType.Some? ==> enumType.value == t.castMap[t.columns[c]])
  }

  // One slot for each column, cast as its column is.
  ghost predicate TupleCast(t: Target, slots: seq<Slot>) {
    |slots| == |t.columns| && forall c :: 0 <= c < |slots| ==> CastAsMapped(t, c, slots[c].enumType)
  }

  lemma {:induction false} SlotsCast(t: Target, base: nat, count: nat)
    requires count <= |t.columns|
    ensures forall c :: 0 <= c < count ==> CastAsMapped(t, c, Slots(t, base, count)[c].enumType)
  {
    if count > 0 { SlotsCast(t, base, count - 1); }
  }

  lemma {:induction false} TuplesCast<V>(t: Target, rows: seq<seq<V>>)
    ensures forall i :: 0 <= i < |rows| ==> TupleCast(t, Tuples(t, rows)[i])
  {
    if rows != [] {
      TuplesCast(t, rows[..|rows| - 1]);
      SlotsCast(t, |Flatten(rows[..|rows| - 1])|, |t.columns|);
    }
  }

  /**
   * In every statement each tuple has one slot for each column, which is cast
   * exactly when the cast map names the column, and then to the type it names.
   */
  lemma StatementsAreCast<V>(t: Target, rows: seq<seq<V>>, batchSize: nat)
    requires batchSize > 0
    ensures forall q :: q in Queries(t, rows, batchSize) ==>
              q.target == t && forall slots :: slots in q.values ==> TupleCast(t, slots)
  {
    var batches := Batches(rows, batchSize);
    forall k | 0 <= k < |batches|
      ensures forall slots :: slots in QueryFor(t, batches[k]).values ==> TupleCast(t, slots)
    {
      TuplesCast(t, batches[k]);
    }
  }

  // The slot numbers of a statement in writing order.
  ghost function Numbers(slots: seq<Slot>): seq<int> {
    if slots == [] then [] else Numbers(slots[..|slots| - 1]) + [slots[|slots| - 1].index]
  }

  ghost function UpFrom(base: int, count: nat): seq<int> {
    if count == 0 then [] else UpFrom(base, count - 1) + [base + count]
  }

  lemma {:induction false} NumbersConcat(a: seq<Slot>, b: seq<Slot>)
    ensures Numbers(a + b) == Numbers(a) + Numbers(b)
  {
    if b == [] {
      assert a + b == a;
    } else {
      assert (a + b)[..|a + b| - 1] == a + b[..|b| - 1];
      NumbersConcat(a, b[..|b| - 1]);
    }
  }

  lemma {:induction false} UpFromConcat(base: int, a: nat, b: nat)
    ensures UpFrom(base, a) + UpFrom(base + a, b) == UpFrom(base, a + b)
  {
    if b > 0 {
      UpFromConcat(base, a, b - 1);
      assert UpFrom(base, a + b) == UpFrom(base, a + (b - 1)) + [base + (a + b)];
    }
  }

  lemma {:induction false} NumbersOfSlots(t: Target, base: nat, count: nat)
    requires count <= |t.columns|
    ensures Numbers(Slots(t, base, count)) == UpFrom(base, count)
  {
    if count > 0 {
      NumbersOfSlots(t, base, count - 1);
      assert Slots(t, base, count)[..count - 1] == Slots(t, base, count - 1);
    }
  }

  lemma NumbersStep<V>(t: Target, before: seq<seq<V>>, last: seq<V>, base: nat)
    requires |last| == |t.columns| && base == |Flatten(before)|
    requires Numbers(Flatten(Tuples(t, before))) == UpFrom(0, base)
    ensures Numbers(Flatten(Tuples(t, before + [last]))) == UpFrom(0, |Flatten(before + [last])|)
  {
    var slots := Slots(t, base, |last|);
    TuplesLast(t, before, last);
    FlattenLast(Tuples(t, before), slots);
    NumbersConcat(Flatten(Tuples(t, before)), slots);
    NumbersOfSlots(t, base, |last|);
    UpFromConcat(0, base, |last|);
    FlattenLast(before, last);
  }

  /** The placeholders of a statement are $1, $2, ... with no gap, one for each parameter. */
  lemma {:induction false} PlaceholdersAreNumbered<V>(t: Target, batch: seq<seq<V>>)
    requires Rectangular(batch, |t.columns|)
    ensures Numbers(Flatten(Tuples(t, batch))) == UpFrom(0, |Flatten(batch)|)
  {
    if batch != [] {
      var before, last := batch[..|batch| - 1], batch[|batch| - 1];
      PlaceholdersAreNumbered(t, before);
      NumbersStep(t, before, last, |Flatten(before)|);
      assert batch == before + [last];
    }
  }

  // The rows of all statements, in order.
  ghost function AllRows<V>(qs: seq<Query<V>>): seq<seq<V>> {
    if qs == [] then [] else Inserted(qs[0]) + AllRows(qs[1..])
  }

  lemma AllRowsFirst<V>(q: Query<V>, rest: seq<Query<V>>)
    ensures AllRows([q] + rest) == Inserted(q) + AllRows(rest)
  {
  }

  /** All statements together insert exactly the rows, in order. */
  lemma {:induction false} BulkInsertIsFaithful<V>(t: Target, rows: seq<seq<V>>, batchSize: nat)
    requires Rectangular(rows, |t.columns|) && batchSize > 0
    ensures AllRows(Queries(t, rows, batchSize)) == rows
    decreases |rows|
  {
    if rows != [] {
      var n := Min(batchSize, |rows|);
      FirstQuery(t, rows, batchSize);
      QueryInsertsBatch(t, rows[..n]);
      BulkInsertIsFaithful(t, rows[n..], batchSize);
      FirstBatchThenOthers(QueryFor(t, rows[..n]), Queries(t, rows[n..], batchSize), rows, n);
    }
  }

  lemma FirstBatchThenOthers<V>(q: Query<V>, rest: seq<Query<V>>, rows: seq<seq<V>>, n: nat)
    requires n <= |rows| && Inserted(q) == rows[..n] && AllRows(rest) == rows[n..]
    ensures AllRows([q] + rest) == rows
  {
    AllRowsFirst(q, rest);
  }

  lemma {:induction false} FlattenSize<V>(rows: seq<seq<V>>, width: nat)
    requires Rectangular(rows, width)
    ensures |Flatten(rows)| == |rows| * width
  {
    if rows != [] {
      var before, last := rows[..|rows| - 1], rows[|rows| - 1];
      assert rows == before + [last];
      FlattenLast(before, last);
      FlattenSize(before, width);
      OneMore(|before|, width);
    }
  }

  lemma OneMore(n: nat, width: nat)
    ensures (n + 1) * width == n * width + width
  {
  }

  lemma ParameterCount<V>(t: Target, batch: seq<seq<V>>)
    requires Rectangular(batch, |t.columns|)
    ensures |QueryFor(t, batch).params| == |batch| * |t.columns|
  {
    FlattenSize(batch, |t.columns|);
  }

  lemma Scaled(a: nat, b: nat, width: nat)
    requires a <= b
    ensures a * width <= b * width
  {
  }

  // No statement binds more parameters than a full batch of the remaining rows.
  lemma {:induction false} NoStatementIsLarger<V>(t: Target, rows: seq<seq<V>>, batchSize: nat)
    requires Rectangular(rows, |t.columns|) && batchSize > 0
    ensures forall q :: q in Queries(t, rows, batchSize) ==>
              |q.params| <= Min(batchSize, |rows|) * |t.columns|
    decreases |rows|
  {
    if rows != [] {
      var n := Min(batchSize, |rows|);
      FirstQuery(t, rows, batchSize);
      ParameterCount(t, rows[..n]);
      NoStatementIsLarger(t, rows[n..], batchSize);
      Scaled(Min(batchSize, |rows[n..]|), n, |t.columns|);
    }
  }

  /**
   * Every statement stays within PostgreSQL's parameter cap exactly when a
   * full batch does: with 4000 rows a batch, up to 16 columns.
   */
  lemma CapHoldsIff<V>(t: Target, rows: seq<seq<V>>, batchSize: nat)
    requires Rectangular(rows, |t.columns|) && batchSize > 0
    ensures (forall q :: q in Queries(t, rows, batchSize) ==> |q.params| <= PARAMETER_CAP) <==>
            Min(batchSize, |rows|) * |t.columns| <= PARAMETER_CAP
  {
    NoStatementIsLarger(t, rows, batchSize);
    if rows != [] {
      var first := rows[..Min(batchSize, |rows|)];
      FirstQuery(t, rows, batchSize);
      ParameterCount(t, first);
      assert Queries(t, rows, batchSize)[0] == QueryFor(t, first);
      assert QueryFor(t, first) in Queries(t, rows, batchSize);
    }
  }
}

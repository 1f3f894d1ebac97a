/**
 * The backend's keyset pagination (backend/src/infra/prisma/prisma.service.ts):
 * rows sorted by one column and the id, and a cursor that carries both.
 * Establishes when it keeps the Paging contract.
 */
module PrismaPaginate {
  import opened Arithmetic
  import opened Wrappers
  import opened Paging

  datatype Direction = Asc | Desc

  // A row as far as paging sees it; the sort column may be NULL.
  datatype Row = Row(id: nat, key: Option<int>)

  // The sort value and id of the last row of a page.
  datatype Cursor = Cursor(id: nat, key: Option<int>)

  function CursorOf(r: Row): Cursor {
    Cursor(r.id, r.key)
  }

  // The database's ascending order: NULL after every value, ties by id.
  predicate Less(a: Row, b: Row) {
    match (a.key, b.key)
    case (Some(x), Some(y)) => x < y || (x == y && a.id < b.id)
    case (Some(_), None) => true
    case (None, Some(_)) => false
    case (None, None) => a.id < b.id
  }

  predicate InOrder(d: Direction, a: Row, b: Row) {
    if d == Asc then Less(a, b) else Less(b, a)
  }

  // The table in query order.
  ghost predicate Sorted(rows: seq<Row>, d: Direction) {
    forall i, j :: 0 <= i < j < |rows| ==> InOrder(d, rows[i], rows[j])
  }

  // buildCursorWhere: a comparison with NULL is never true in SQL, and a
  // cursor without a sort value filters nothing.
  predicate Matches(r: Row, d: Direction, c: Option<Cursor>) {
    if c.None? || c.value.key.None? then true
    else if r.key.None? then false
    else
      var (x, y) := (r.key.value, c.value.key.value);
      if d == Asc then x > y || (x == y && r.id > c.value.id)
      else x < y || (x == y && r.id < c.value.id)
  }

  function Filter(rows: seq<Row>, d: Direction, c: Option<Cursor>): seq<Row> {
    if rows == [] then []
    else (if Matches(rows[0], d, c) then [rows[0]] else []) + Filter(rows[1..], d, c)
  }

  function Take(rows: seq<Row>, limit: nat): seq<Row> {
    rows[..Min(limit, |rows|)]
  }

  // paginateMany with a sort column.
  function PaginateMany(rows: seq<Row>, d: Direction, limit: nat, c: Option<Cursor>): Page<Row, Cursor>
    requires limit > 0
  {
    var data := Take(Filter(rows, d, c), limit);
    Page(data, |rows|, if |data| == limit then Some(CursorOf(data[limit - 1])) else None)
  }

  // The cursor that a chain of correct pages reaches before page k.
  function CursorBefore(rows: seq<Row>, limit: nat, k: nat): Option<Cursor>
    requires k * limit <= |rows| && limit > 0
  {
    if k == 0 then None
    else
      assert k * limit >= limit;
      Some(CursorOf(rows[k * limit - 1]))
  }

  // Every page a screen can reach by cursors is the right slice.
  ghost predicate PagesAreSlices(rows: seq<Row>, d: Direction, limit: nat)
    requires limit > 0
  {
    forall k: nat :: k * limit <= |rows| ==>
      PaginateMany(rows, d, limit, CursorBefore(rows, limit, k)).data == Slice(rows, limit, k)
  }

  ghost predicate NoNull(rows: seq<Row>) {
    forall r :: r in rows ==> r.key.Some?
  }

  // The last row of every full page has a sort value.
  ghost predicate BoundariesNotNull(rows: seq<Row>, limit: nat)
    requires limit > 0
  {
    forall k: nat :: 0 < k && k * limit <= |rows| ==> CursorBefore(rows, limit, k).value.key.Some?
  }

  // When paginateMany pages correctly: a list shorter than one page, or sort
  // values where the cursors need them.
  ghost predicate SortValuesSuffice(rows: seq<Row>, d: Direction, limit: nat)
    requires limit > 0
  {
    match d
    case Asc => |rows| < limit || NoNull(rows)
    case Desc => BoundariesNotNull(rows, limit)
  }

  lemma {:induction false} FilterAll(rows: seq<Row>, d: Direction, c: Option<Cursor>)
    requires forall r :: r in rows ==> Matches(r, d, c)
    ensures Filter(rows, d, c) == rows
  {
    if rows != [] {
      FilterAll(rows[1..], d, c);
    }
  }

  // If exactly the rows from i on match, filtering drops the first i.
  lemma {:induction false} FilterSuffix(rows: seq<Row>, d: Direction, c: Option<Cursor>, i: nat)
    requires i <= |rows|
    requires forall j :: 0 <= j < |rows| ==> (Matches(rows[j], d, c) <==> i <= j)
    ensures Filter(rows, d, c) == rows[i..]
  {
    if i == 0 {
      FilterAll(rows, d, c);
    } else {
      FilterSuffix(rows[1..], d, c, i - 1);
      assert rows[1..][i - 1..] == rows[i..];
    }
  }

  lemma {:induction false} FilterKeepsMatching(rows: seq<Row>, d: Direction, c: Option<Cursor>)
    ensures forall r :: r in Filter(rows, d, c) ==> r in rows && Matches(r, d, c)
  {
    if rows != [] {
      FilterKeepsMatching(rows[1..], d, c);
    }
  }

  // A cursor with a sort value, taken at row i - 1, matches exactly the rows from i on.
  lemma MatchesAfter(rows: seq<Row>, d: Direction, i: nat)
    requires Sorted(rows, d) && 0 < i <= |rows| && rows[i - 1].key.Some?
    requires forall j :: i <= j < |rows| ==> rows[j].key.Some?
    ensures forall j :: 0 <= j < |rows| ==> (Matches(rows[j], d, Some(CursorOf(rows[i - 1]))) <==> i <= j)
  {
  }

  lemma TakeIsSlice(rows: seq<Row>, limit: nat, k: nat)
    requires k * limit <= |rows|
    ensures Take(rows[k * limit..], limit) == Slice(rows, limit, k)
  {
  }

  lemma PageAfter(rows: seq<Row>, d: Direction, limit: nat, k: nat)
    requires Sorted(rows, d) && limit > 0 && 0 < k && k * limit <= |rows|
    requires forall j :: k * limit - 1 <= j < |rows| ==> rows[j].key.Some?
    ensures PaginateMany(rows, d, limit, CursorBefore(rows, limit, k)).data == Slice(rows, limit, k)
  {
    var i := k * limit;
    assert i >= limit;
    MatchesAfter(rows, d, i);
    FilterSuffix(rows, d, CursorBefore(rows, limit, k), i);
    TakeIsSlice(rows, limit, k);
  }

  lemma FirstPage(rows: seq<Row>, d: Direction, limit: nat)
    requires limit > 0
    ensures PaginateMany(rows, d, limit, None).data == Slice(rows, limit, 0)
  {
    FilterAll(rows, d, None);
    assert 0 * limit == 0 && 1 * limit == limit;
  }

  lemma Sufficient(rows: seq<Row>, d: Direction, limit: nat)
    requires Sorted(rows, d) && limit > 0 && SortValuesSuffice(rows, d, limit)
    ensures PagesAreSlices(rows, d, limit)
  {
    forall k: nat | k * limit <= |rows|
      ensures PaginateMany(rows, d, limit, CursorBefore(rows, limit, k)).data == Slice(rows, limit, k)
    {
      if k == 0 {
        FirstPage(rows, d, limit);
      } else {
        var i := k * limit;
        assert i >= limit;
        assert CursorBefore(rows, limit, k).Some?;
        forall j | i - 1 <= j < |rows| ensures rows[j].key.Some? {
          if i - 1 < j { assert InOrder(d, rows[i - 1], rows[j]); }
          assert rows[i - 1] in rows && rows[j] in rows;
        }
        PageAfter(rows, d, limit, k);
      }
    }
  }

  // A cursor without a sort value starts over, so a later page is wrong.
  lemma NullCursorRestarts(rows: seq<Row>, d: Direction, limit: nat, k: nat)
    requires Sorted(rows, d) && limit > 0 && 0 < k && k * limit <= |rows|
    requires CursorBefore(rows, limit, k).value.key.None?
    ensures PaginateMany(rows, d, limit, CursorBefore(rows, limit, k)).data != Slice(rows, limit, k)
  {
    var i := k * limit;
    assert i >= limit;
    FilterAll(rows, d, CursorBefore(rows, limit, k));
    FirstRowElsewhere(rows, d, limit, k);
  }

  lemma FirstRowElsewhere(rows: seq<Row>, d: Direction, limit: nat, k: nat)
    requires Sorted(rows, d) && 0 < limit <= k * limit <= |rows|
    ensures Take(rows, limit) != Slice(rows, limit, k)
  {
    var i := k * limit;
    assert (k + 1) * limit == i + limit;
    if i < |rows| {
      assert Slice(rows, limit, k)[0] == rows[i];
      assert InOrder(d, rows[0], rows[i]);
    }
  }

  lemma NecessaryDesc(rows: seq<Row>, limit: nat)
    requires Sorted(rows, Desc) && limit > 0 && PagesAreSlices(rows, Desc, limit)
    ensures BoundariesNotNull(rows, limit)
  {
    forall k: nat | 0 < k && k * limit <= |rows|
      ensures CursorBefore(rows, limit, k).value.key.Some?
    {
      if CursorBefore(rows, limit, k).value.key.None? {
        NullCursorRestarts(rows, Desc, limit, k);
      }
    }
  }

  // A cursor with a sort value drops the NULL rows of its page.
  lemma NullRowDropped(rows: seq<Row>, limit: nat, k: nat, n: nat)
    requires limit > 0 && 0 < k && k * limit <= n < |rows| && n < (k + 1) * limit
    requires rows[n].key.None? && CursorBefore(rows, limit, k).value.key.Some?
    ensures PaginateMany(rows, Asc, limit, CursorBefore(rows, limit, k)).data != Slice(rows, limit, k)
  {
    var c := CursorBefore(rows, limit, k);
    FilterKeepsMatching(rows, Asc, c);
    assert !Matches(rows[n], Asc, c);
    RowInSlice(rows, Filter(rows, Asc, c), limit, k * limit, (k + 1) * limit, n);
  }

  // What is not kept is not on the page that should show it.
  lemma RowInSlice(rows: seq<Row>, kept: seq<Row>, limit: nat, lo: nat, hi: nat, n: nat)
    requires lo <= n < |rows| && n < hi && rows[n] !in kept
    ensures Take(kept, limit) != rows[Min(lo, |rows|)..Min(hi, |rows|)]
  {
    assert rows[Min(lo, |rows|)..Min(hi, |rows|)][n - lo] == rows[n];
  }

  // Ascending, a NULL row sorts last: the page after the first that it
  // belongs to, or the empty page after it, starts over or drops it.
  lemma NullRowIsMissed(rows: seq<Row>, limit: nat)
    requires Sorted(rows, Asc) && 0 < limit <= |rows| && rows[|rows| - 1].key.None?
    ensures !PagesAreSlices(rows, Asc, limit)
  {
    var n := |rows| - 1;
    if n < limit {
      assert 1 * limit == |rows|;
      NullCursorRestarts(rows, Asc, limit, 1);
    } else {
      var k := n / limit;
      PageOfRow(n, limit);
      if CursorBefore(rows, limit, k).value.key.None? {
        NullCursorRestarts(rows, Asc, limit, k);
      } else {
        NullRowDropped(rows, limit, k, n);
      }
    }
  }

  lemma PageOfRow(n: nat, limit: nat)
    requires 0 < limit <= n
    ensures 0 < n / limit && n / limit * limit <= n < (n / limit + 1) * limit
  {
  }

  lemma NecessaryAsc(rows: seq<Row>, limit: nat)
    requires Sorted(rows, Asc) && 0 < limit <= |rows| && PagesAreSlices(rows, Asc, limit)
    ensures NoNull(rows)
  {
    var n := |rows| - 1;
    if rows[n].key.None? {
      NullRowIsMissed(rows, limit);
    } else {
      forall r | r in rows ensures r.key.Some? {
        var m :| 0 <= m < |rows| && rows[m] == r;
        if m < n { assert InOrder(Asc, rows[m], rows[n]); }
      }
    }
  }

  /**
   * Paging by cursors returns exactly the slices of the sorted table if and
   * only if the sort values suffice.
   */
  lemma PaginateManyIsCorrectIff(rows: seq<Row>, d: Direction, limit: nat)
    requires Sorted(rows, d) && limit > 0
    ensures PagesAreSlices(rows, d, limit) <==> SortValuesSuffice(rows, d, limit)
  {
    if SortValuesSuffice(rows, d, limit) {
      Sufficient(rows, d, limit);
    }
    if PagesAreSlices(rows, d, limit) {
      if d == Desc {
        NecessaryDesc(rows, limit);
      } else if |rows| >= limit {
        NecessaryAsc(rows, limit);
      }
    }
  }

  lemma Multiples(k: nat, m: nat, limit: nat)
    requires limit > 0 && k < m
    ensures k * limit + limit <= m * limit && k <= k * limit
  {
    AtLeast(m - k, limit);
    AtLeast(limit, k);
    assert m * limit == k * limit + (m - k) * limit;
  }

  lemma AtLeast(a: int, b: nat)
    requires a >= 1
    ensures a * b >= b
  {
  }

  lemma CursorsAreDistinct(rows: seq<Row>, d: Direction, limit: nat)
    requires Sorted(rows, d) && limit > 0
    ensures forall k: nat, m: nat | 0 < k && k * limit <= |rows| && 0 < m && m * limit <= |rows| ::
              CursorBefore(rows, limit, k) == CursorBefore(rows, limit, m) ==> k == m
  {
  }

  // paginateMany over a fixed table, as an endpoint.
  ghost function ServerOf(rows: seq<Row>, d: Direction, limit: nat): Server<Row, Cursor>
    requires Sorted(rows, d) && limit > 0
  {
    CursorsAreDistinct(rows, d, limit);
    Server(rows, PaginateMany(rows, d, limit, None),
           map k: nat | k <= |rows| && 0 < k && k * limit <= |rows| ::
             CursorBefore(rows, limit, k).value := (k, PaginateMany(rows, d, limit, CursorBefore(rows, limit, k))),
           c => PaginateMany(rows, d, limit, Some(c)))
  }

  // The cursor given with a correct page is the one before the next page.
  lemma NextCursor(rows: seq<Row>, d: Direction, limit: nat, k: nat, p: Page<Row, Cursor>)
    requires limit > 0 && k * limit <= |rows|
    requires p == PaginateMany(rows, d, limit, CursorBefore(rows, limit, k))
    requires p.data == Slice(rows, limit, k)
    ensures p.next.Some? <==> (k + 1) * limit <= |rows|
    ensures p.next.Some? ==> p.next == CursorBefore(rows, limit, k + 1)
  {
  }

  lemma CursorIssued(rows: seq<Row>, d: Direction, limit: nat, k: nat)
    requires Sorted(rows, d) && limit > 0 && k * limit <= |rows|
    ensures var s, c := ServerOf(rows, d, limit), CursorBefore(rows, limit, k);
            Issued(s, c) && PageNo(s, c) == k && Fetch(s, c) == PaginateMany(rows, d, limit, c)
  {
    if k > 0 {
      Multiples(0, k, limit);
      Multiples(k - 1, k, limit);
      CursorsAreDistinct(rows, d, limit);
      assert k <= k * limit;
    }
  }

  lemma ServesFrom(s: Server<Row, Cursor>, limit: nat, c: Option<Cursor>, k: nat, p: Page<Row, Cursor>)
    requires limit > 0 && Issued(s, c) && PageNo(s, c) == k && Fetch(s, c) == p
    requires p.data == Slice(s.rows, limit, k) && p.total == |s.rows|
    requires p.next.Some? <==> (k + 1) * limit <= |s.rows|
    requires p.next.Some? ==> Issued(s, p.next) && PageNo(s, p.next) == k + 1
    ensures ServesPage(s, limit, c)
  {
  }

  lemma PageServed(rows: seq<Row>, d: Direction, limit: nat, k: nat)
    requires Sorted(rows, d) && limit > 0 && PagesAreSlices(rows, d, limit) && k * limit <= |rows|
    ensures var s, c := ServerOf(rows, d, limit), CursorBefore(rows, limit, k);
            Issued(s, c) && ServesPage(s, limit, c)
  {
    var c := CursorBefore(rows, limit, k);
    var p := PaginateMany(rows, d, limit, c);
    CursorIssued(rows, d, limit, k);
    NextCursor(rows, d, limit, k, p);
    if (k + 1) * limit <= |rows| {
      CursorIssued(rows, d, limit, k + 1);
    }
    ServesFrom(ServerOf(rows, d, limit), limit, c, k, p);
  }

  // Whatever cursor it is given, the endpoint answers as paginateMany does.
  lemma FetchIsPaginateMany(rows: seq<Row>, d: Direction, limit: nat, c: Option<Cursor>)
    requires Sorted(rows, d) && limit > 0
    ensures Fetch(ServerOf(rows, d, limit), c) == PaginateMany(rows, d, limit, c)
  {
    CursorsAreDistinct(rows, d, limit);
  }

  /** Where the sort values suffice, paginateMany keeps the paging contract. */
  lemma PaginateManyServes(rows: seq<Row>, d: Direction, limit: nat)
    requires Sorted(rows, d) && limit > 0 && SortValuesSuffice(rows, d, limit)
    ensures WellServed(ServerOf(rows, d, limit), limit)
    ensures forall c :: Fetch(ServerOf(rows, d, limit), c) == PaginateMany(rows, d, limit, c)
  {
    var s := ServerOf(rows, d, limit);
    PaginateManyIsCorrectIff(rows, d, limit);
    forall c ensures Fetch(s, c) == PaginateMany(rows, d, limit, c) {
      FetchIsPaginateMany(rows, d, limit, c);
    }
    forall c | Issued(s, c) ensures ServesPage(s, limit, c) {
      assert 0 * limit == 0;
      var k: nat :| k * limit <= |rows| && CursorBefore(rows, limit, k) == c;
      PageServed(rows, d, limit, k);
    }
  }
}

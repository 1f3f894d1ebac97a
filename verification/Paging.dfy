/**
 * What a list endpoint promises the screens that page through it: rows, page
 * size, and a cursor for the page after each page.
 */
module Paging {
  import opened Arithmetic
  import opened Wrappers

  datatype Page<T, C> = Page(data: seq<T>, total: nat, next: Option<C>)

  // An endpoint over a fixed list: its first page, for every cursor it issues
  // the number and content of the page the cursor fetches, and what it makes of
  // a cursor that it did not issue, such as one for another list.
  datatype Server<T, !C(==)> = Server(
    rows: seq<T>, first: Page<T, C>, more: map<C, (nat, Page<T, C>)>, foreign: C -> Page<T, C>)

  // Rows k * limit up to (k + 1) * limit, as far as there are rows.
  function Slice<T>(rows: seq<T>, limit: nat, k: nat): seq<T> {
    rows[Min(k * limit, |rows|)..Min((k + 1) * limit, |rows|)]
  }

  predicate Issued<T, C>(s: Server<T, C>, c: Option<C>) {
    c.Some? ==> c.value in s.more
  }

  function PageNo<T, C>(s: Server<T, C>, c: Option<C>): nat
    requires Issued(s, c)
  {
    match c
    case None => 0
    case Some(v) => s.more[v].0
  }

  function Fetch<T, C>(s: Server<T, C>, c: Option<C>): Page<T, C> {
    match c
    case None => s.first
    case Some(v) => if v in s.more then s.more[v].1 else s.foreign(v)
  }

  /**
   * The contract: the cursor issued with page k fetches page k + 1; a cursor
   * is given whenever rows remain, and may be given on an exactly full last page.
   */
  ghost predicate WellServed<T, C(!new)>(s: Server<T, C>, limit: nat) {
    && limit > 0
    && forall c {:trigger ServesPage(s, limit, c)} :: Issued(s, c) ==> ServesPage(s, limit, c)
  }

  ghost predicate ServesPage<T, C>(s: Server<T, C>, limit: nat, c: Option<C>)
    requires Issued(s, c)
  {
    var k, p := PageNo(s, c), Fetch(s, c);
    && p.data == Slice(s.rows, limit, k)
    && p.total == |s.rows|
    && ((k + 1) * limit < |s.rows| ==> p.next.Some?)
    && (p.next.Some? ==> (k + 1) * limit <= |s.rows| && Issued(s, p.next) && PageNo(s, p.next) == k + 1)
  }

  /** Pages laid end to end are the list they page through. */
  lemma SliceExtends<T>(rows: seq<T>, limit: nat, k: nat)
    ensures rows[..Min(k * limit, |rows|)] + Slice(rows, limit, k) == rows[..Min((k + 1) * limit, |rows|)]
  {
  }

  lemma NextPage<T, C(!new)>(s: Server<T, C>, limit: nat, c: Option<C>)
    requires WellServed(s, limit) && Issued(s, c)
    ensures ServesPage(s, limit, c)
  {
  }

  /** The location hook's loop: fetch, append, follow the cursor until there is none. */
  method Drain<T, C(==,!new)>(s: Server<T, C>, limit: nat) returns (all: seq<T>)
    requires WellServed(s, limit)
    ensures all == s.rows
  {
    all := [];
    var cursor: Option<C> := None;
    ghost var k := 0;
    var again := true;
    assert k * limit == 0;
    while again
      invariant again ==> Issued(s, cursor) && PageNo(s, cursor) == k && k * limit <= |s.rows|
      invariant all == s.rows[..Min(k * limit, |s.rows|)]
      invariant !again ==> k * limit >= |s.rows|
      decreases again, |s.rows| - k * limit
    {
      NextPage(s, limit, cursor);
      var page := Fetch(s, cursor);
      SliceExtends(s.rows, limit, k);
      all := all + page.data;
      cursor := page.next;
      again := cursor.Some?;
      assert (k + 1) * limit == k * limit + limit;
      k := k + 1;
    }
  }
}

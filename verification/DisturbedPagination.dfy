/**
 * What the pagination hook (frontend/hooks/use-cursor-pagination.ts) shows when
 * requests overlap: exactly which orders of which answers leave the view right.
 */
module DisturbedPagination {
  import opened Wrappers
  import opened Paging
  import opened CursorPagination

  // The event sends a request for a page.
  predicate Navigates<T, C>(s: State<T, C>, limit: nat, e: Event) {
    (e == ClickNext && HasNext(s.view, limit)) || (e == ClickPrevious && HasPrevious(s.view)) || e == ClickRefresh
  }

  function RequestOf<T, C>(s: State<T, C>, limit: nat, e: Event): (r: Request<C>)
    requires Navigates(s, limit, e)
    ensures !r.Filter?
  {
    if e == ClickNext then Next(s.filterKey, s.view.next.value)
    else if e == ClickPrevious then Previous(s.filterKey, s.view.stack[|s.view.stack| - 2])
    else Refresh(s.filterKey, Top(s.view.stack))
  }

  // At rest: nothing outstanding that will write.
  ghost predicate Rested<T, C>(s: State<T, C>) {
    NoneLive(s) && forall id :: id in s.requests ==> id < s.issued
  }

  // Two outstanding requests answered one after the other: both are written.
  lemma BothWritten<T, C>(servers: map<string, Server<T, C>>, s: State<T, C>, i: nat, j: nat)
    requires i in s.requests && j in s.requests && i != j && !Cancelled(s.requests[i]) && !Cancelled(s.requests[j])
    ensures var r, q := s.requests[i], s.requests[j];
            Run(servers, s, [Succeed(i), Succeed(j)]) ==
            s.(view := Written(Written(s.view, r, Answer(servers, r)), q, Answer(servers, q)), loading := false,
               requests := s.requests - {i} - {j})
  {
    RunTwo(servers, s, Succeed(i), Succeed(j));
  }

  // Two requests sent at rest, and both answered: nothing is left to put the view right.
  lemma TwoAnswered<T, C>(servers: map<string, Server<T, C>>, s: State<T, C>, sent: State<T, C>, i: nat, j: nat)
    requires Rested(s) && i in sent.requests && j in sent.requests && i != j
    requires !Cancelled(sent.requests[i]) && !Cancelled(sent.requests[j])
    requires forall id :: id in sent.requests && id != i && id != j ==> Cancelled(sent.requests[id])
    ensures var r, q, t := sent.requests[i], sent.requests[j], Run(servers, sent, [Succeed(i), Succeed(j)]);
            && t.view == Written(Written(sent.view, r, Answer(servers, r)), q, Answer(servers, q))
            && !t.loading && NoneLive(t) && t.filterKey == sent.filterKey
  {
    BothWritten(servers, sent, i, j);
  }

  // ---- A navigation with another one outstanding -----------------------------------------------

  lemma AtMost(a: nat, b: nat, limit: nat)
    requires a <= b
    ensures a * limit <= b * limit
  {
  }

  // A page is shown under another page's number.
  lemma WrongPage<T, C(!new)>(server: Server<T, C>, limit: nat, v: View<T, C>, c: Option<C>)
    requires WellServed(server, limit) && Issued(server, c) && Fetch(server, c) == Page(v.data, v.total, v.next)
    requires PageNo(server, c) + 1 != PageOf(v)
    requires PageNo(server, c) > 0 ==> PageNo(server, c) * limit < |server.rows|
    ensures !Correct(server, limit, v)
  {
    if Correct(server, limit, v) {
      var top := v.stack[|v.stack| - 1];
      NextPage(server, limit, c);
      NextPage(server, limit, top);
      if PageNo(server, c) < PageNo(server, top) {
        AtMost(PageNo(server, c) + 1, PageNo(server, top), limit);
      } else {
        AtMost(PageNo(server, top) + 1, PageNo(server, c), limit);
      }
    }
  }

  // The pages the navigations from a correct view ask for.
  lemma Asked<T, C(!new)>(server: Server<T, C>, limit: nat, s: State<T, C>, e: Event)
    requires WellServed(server, limit) && Correct(server, limit, s.view) && Navigates(s, limit, e)
    ensures var c, n := CursorOf(RequestOf(s, limit, e)), PageOf(s.view);
            && Issued(server, c)
            && PageNo(server, c) == (if e == ClickNext then n else if e == ClickPrevious then n - 2 else n - 1)
            && (PageNo(server, c) > 0 ==> PageNo(server, c) * limit < |server.rows|)
  {
    CorrectViewIsSlice(server, limit, s.view);
    NextPage(server, limit, Top(s.view.stack));
    if e == ClickPrevious { AtMost(PageOf(s.view) - 2, PageOf(s.view) - 1, limit); }
  }

  /** Of two navigations from one view, both answers leave it right exactly when the one answered first is a refresh. */
  lemma AnsweredAfterIff<T, C(!new)>(
      servers: map<string, Server<T, C>>, limit: nat, s: State<T, C>, e: Event, f: Event)
    requires AllServed(servers, limit) && s.filterKey in servers && Correct(servers[s.filterKey], limit, s.view)
    requires Navigates(s, limit, e) && Navigates(s, limit, f)
    ensures var r, q := RequestOf(s, limit, e), RequestOf(s, limit, f);
            var first := Written(s.view, r, Answer(servers, r));
            Correct(servers[s.filterKey], limit, Written(first, q, Answer(servers, q))) <==> e == ClickRefresh
  {
    var server, r, q := servers[s.filterKey], RequestOf(s, limit, e), RequestOf(s, limit, f);
    var first := Written(s.view, r, Answer(servers, r));
    var both := Written(first, q, Answer(servers, q));
    assert WellServed(server, limit);
    if e == ClickRefresh {
      assert first == s.view;
      if f != ClickRefresh { AnswerIsCorrect(servers, limit, s, q); }
    } else {
      Asked(server, limit, s, f);
      WrongPage(server, limit, both, CursorOf(q));
    }
  }

  // A live request at a page, or the page turn waited for, is what some navigation of the screen sent.
  lemma SentByNavigation<T, C>(servers: map<string, Server<T, C>>, limit: nat, s: State<T, C>, id: nat)
      returns (e: Event)
    requires Good(servers, limit, s) && id in s.requests && !s.requests[id].Filter?
    ensures Navigates(s, limit, e) && RequestOf(s, limit, e) == s.requests[id]
    ensures e == ClickRefresh <==> s.requests[id].Refresh?
    ensures Correct(servers[s.filterKey], limit, s.view)
  {
    e := match s.requests[id] {
      case Filter(_, _) => ClickRefresh
      case Next(_, _) => ClickNext
      case Previous(_, _) => ClickPrevious
      case Refresh(_, _) => ClickRefresh
    };
  }

  // Both orders in which the outstanding request and the newest one may be answered leave the view right.
  ghost predicate RightInBothOrders<T, C>(
      servers: map<string, Server<T, C>>, limit: nat, s: State<T, C>, i: nat, j: nat)
    requires s.filterKey in servers
  {
    && Correct(servers[s.filterKey], limit, Run(servers, s, [Succeed(i), Succeed(j)]).view)
    && Correct(servers[s.filterKey], limit, Run(servers, s, [Succeed(j), Succeed(i)]).view)
  }

  lemma OrdersIff<T, C(!new)>(
      servers: map<string, Server<T, C>>, limit: nat, s: State<T, C>, e: Event, id: nat)
    requires AllServed(servers, limit) && Good(servers, limit, s) && Navigates(s, limit, e)
    requires id in s.requests && !s.requests[id].Filter?
    ensures RightInBothOrders(servers, limit, Step(servers, s, e), id, s.issued) <==>
            e == ClickRefresh && s.requests[id].Refresh?
  {
    var f := SentByNavigation(servers, limit, s, id);
    var sent := Step(servers, s, e);
    assert sent == Send(s, RequestOf(s, limit, e));
    BothWritten(servers, sent, id, s.issued);
    BothWritten(servers, sent, s.issued, id);
    AnsweredAfterIff(servers, limit, s, e, f);
    AnsweredAfterIff(servers, limit, s, f, e);
  }

  /**
   * A navigation is undisturbed exactly when, whatever page request is still
   * outstanding, both orders of its answer and the new one leave the view right.
   */
  lemma UndisturbedIff<T, C(!new)>(servers: map<string, Server<T, C>>, limit: nat, s: State<T, C>, e: Event)
    requires AllServed(servers, limit) && Good(servers, limit, s) && Navigates(s, limit, e)
    requires forall id :: id in s.requests ==> !LiveFilter(s.requests[id])
    ensures Undisturbed(servers, limit, s, e) <==>
            forall id :: id in s.requests && !Cancelled(s.requests[id]) ==>
              RightInBothOrders(servers, limit, Step(servers, s, e), id, s.issued)
  {
    forall id | id in s.requests && !Cancelled(s.requests[id])
      ensures RightInBothOrders(servers, limit, Step(servers, s, e), id, s.issued) <==>
              e == ClickRefresh && s.requests[id].Refresh?
    {
      OrdersIff(servers, limit, s, e, id);
    }
  }

  lemma SentBoth<T, C>(servers: map<string, Server<T, C>>, limit: nat, s: State<T, C>, e: Event, f: Event)
    requires Navigates(s, limit, e) && Navigates(s, limit, f)
    ensures var r, q, sent := RequestOf(s, limit, e), RequestOf(s, limit, f), Run(servers, s, [e, f]);
            && sent == Send(Send(s, r), q)
            && s.issued in sent.requests && sent.requests[s.issued] == r
            && s.issued + 1 in sent.requests && sent.requests[s.issued + 1] == q
  {
    RunTwo(servers, s, e, f);
  }

  lemma NavigationThenNavigation<T, C>(
      servers: map<string, Server<T, C>>, limit: nat, s: State<T, C>, e: Event, f: Event, swapped: bool)
    requires Rested(s) && Navigates(s, limit, e) && Navigates(s, limit, f)
    ensures var r, q, sent := RequestOf(s, limit, e), RequestOf(s, limit, f), Run(servers, s, [e, f]);
            var i, j := if swapped then s.issued + 1 else s.issued, if swapped then s.issued else s.issued + 1;
            var a, b := if swapped then q else r, if swapped then r else q;
            var t := Run(servers, sent, [Succeed(i), Succeed(j)]);
            && t.view == Written(Written(s.view, a, Answer(servers, a)), b, Answer(servers, b))
            && !t.loading && NoneLive(t) && t.filterKey == s.filterKey
  {
    var sent := Run(servers, s, [e, f]);
    SentBoth(servers, limit, s, e, f);
    if swapped {
      TwoAnswered(servers, s, sent, s.issued + 1, s.issued);
    } else {
      TwoAnswered(servers, s, sent, s.issued, s.issued + 1);
    }
  }

  /**
   * Two navigations sent at rest end at rest, and the view is right exactly when the
   * one answered first is a refresh: in both orders exactly when both are.
   */
  lemma TwoNavigationsIff<T, C(!new)>(
      servers: map<string, Server<T, C>>, limit: nat, s: State<T, C>, e: Event, f: Event)
    requires AllServed(servers, limit) && Good(servers, limit, s) && NoneLive(s)
    requires Navigates(s, limit, e) && Navigates(s, limit, f)
    ensures var sent := Run(servers, s, [e, f]);
            var t := Run(servers, sent, [Succeed(s.issued), Succeed(s.issued + 1)]);
            var t' := Run(servers, sent, [Succeed(s.issued + 1), Succeed(s.issued)]);
            && !t.loading && NoneLive(t) && t.filterKey == s.filterKey
            && !t'.loading && NoneLive(t') && t'.filterKey == s.filterKey
            && (Correct(servers[s.filterKey], limit, t.view) <==> e == ClickRefresh)
            && (Correct(servers[s.filterKey], limit, t'.view) <==> f == ClickRefresh)
  {
    OnlyRefreshesAtPage(servers, limit, s);
    NavigationThenNavigation(servers, limit, s, e, f, false);
    NavigationThenNavigation(servers, limit, s, e, f, true);
    AnsweredAfterIff(servers, limit, s, e, f);
    AnsweredAfterIff(servers, limit, s, f, e);
  }

  // The rows an answer to a navigation brings, while the view is correct.
  lemma NavigatedRows<T, C(!new)>(servers: map<string, Server<T, C>>, limit: nat, s: State<T, C>, e: Event)
    requires AllServed(servers, limit) && s.filterKey in servers
    requires Correct(servers[s.filterKey], limit, s.view) && Navigates(s, limit, e)
    ensures var data, rows := Answer(servers, RequestOf(s, limit, e)).data, servers[s.filterKey].rows;
            && PageOf(s.view) >= 1
            && (e == ClickNext ==> data == Slice(rows, limit, PageOf(s.view)))
            && (e == ClickPrevious ==> PageOf(s.view) >= 2 && data == Slice(rows, limit, PageOf(s.view) - 2))
            && (e == ClickRefresh ==> data == s.view.data == Slice(rows, limit, PageOf(s.view) - 1))
  {
    var server, n := servers[s.filterKey], |s.view.stack|;
    NextPage(server, limit, s.view.stack[n - 1]);
    if e == ClickNext {
      NextPage(server, limit, s.view.next);
    } else if e == ClickPrevious {
      NextPage(server, limit, s.view.stack[n - 2]);
    }
  }

  /**
   * Why the list must not be refreshed while a page is being turned: the later
   * answer shows the old page's rows under the new page's number.
   */
  lemma RefreshUndoesNext<T, C(!new)>(servers: map<string, Server<T, C>>, limit: nat, s: State<T, C>)
    requires AllServed(servers, limit) && Good(servers, limit, s) && NoneLive(s) && HasNext(s.view, limit)
    ensures var sent := Run(servers, s, [ClickNext, ClickRefresh]);
            var t := Run(servers, sent, [Succeed(s.issued), Succeed(s.issued + 1)]);
            && !t.loading && NoneLive(t)
            && t.view.data == s.view.data && PageOf(t.view) == PageOf(s.view) + 1
  {
    OnlyRefreshesAtPage(servers, limit, s);
    NavigationThenNavigation(servers, limit, s, ClickNext, ClickRefresh, false);
    NavigatedRows(servers, limit, s, ClickRefresh);
  }

  /**
   * The footer's own guard does not prevent that: of two refreshes the first
   * answer ends loading, next is offered, and the other refresh answers after it.
   */
  lemma OverlappingRefreshUndoesNext<T, C(!new)>(servers: map<string, Server<T, C>>, limit: nat, s: State<T, C>)
    requires AllServed(servers, limit) && Good(servers, limit, s) && NoneLive(s) && HasNext(s.view, limit)
    ensures var one := Run(servers, Run(servers, s, [ClickRefresh, ClickRefresh]), [Succeed(s.issued + 1), ClickNext]);
            var t := Run(servers, one, [Succeed(s.issued + 2), Succeed(s.issued)]);
            && !Step(servers, Run(servers, s, [ClickRefresh, ClickRefresh]), Succeed(s.issued + 1)).loading
            && !t.loading && NoneLive(t)
            && t.view.data == s.view.data && PageOf(t.view) == PageOf(s.view) + 1
  {
    OnlyRefreshesAtPage(servers, limit, s);
    var n, q, r := s.issued, Refresh(s.filterKey, Top(s.view.stack)), Next(s.filterKey, s.view.next.value);
    RunTwo(servers, s, ClickRefresh, ClickRefresh);
    FirstRefreshAnswered(servers, s, q);
    RunTwo(servers, Send(Send(s, q), q), Succeed(n + 1), ClickNext);
    NextAfterRefresh(servers, s, q, r);
    NavigatedRows(servers, limit, s, ClickRefresh);
  }

  // Two refreshes sent, the second answered: the same page again, and one refresh outstanding.
  lemma FirstRefreshAnswered<T, C>(servers: map<string, Server<T, C>>, s: State<T, C>, q: Request<C>)
    requires Rested(s) && q == Refresh(s.filterKey, Top(s.view.stack))
    requires Written(s.view, q, Answer(servers, q)) == s.view
    ensures RefreshClicked(RefreshClicked(s)) == Send(Send(s, q), q)
    ensures Step(servers, Send(Send(s, q), q), Succeed(s.issued + 1)) ==
            s.(loading := false, requests := s.requests[s.issued := q], issued := s.issued + 2)
  {
  }

  lemma NextAfterRefresh<T, C>(servers: map<string, Server<T, C>>, s: State<T, C>, q: Request<C>, r: Request<C>)
    requires Rested(s) && q.Refresh? && r.Next?
    ensures var sent := Send(s.(loading := false, requests := s.requests[s.issued := q], issued := s.issued + 2), r);
            var t := Run(servers, sent, [Succeed(s.issued + 2), Succeed(s.issued)]);
            && t.view == Written(Written(s.view, r, Answer(servers, r)), q, Answer(servers, q))
            && !t.loading && NoneLive(t)
  {
    var sent := Send(s.(loading := false, requests := s.requests[s.issued := q], issued := s.issued + 2), r);
    assert sent.requests[s.issued + 2] == r && sent.requests[s.issued] == q;
    TwoAnswered(servers, s, sent, s.issued + 2, s.issued);
  }

  // ---- A navigation and a change of the filter -------------------------------------------------

  // The answer p to a navigation, arriving after a filter's first page, is that filter's page.
  ghost predicate AnswersFor<T, C>(server: Server<T, C>, limit: nat, r: Request<C>, p: Page<T, C>) {
    match r
    case Filter(_, _) => false
    case Next(_, c) => c in server.more && server.more[c] == (1, p) && limit < |server.rows|
    case Previous(_, _) => false
    case Refresh(_, _) => p == server.first
  }

  lemma LateAnswerIff<T, C(!new)>(server: Server<T, C>, limit: nat, r: Request<C>, p: Page<T, C>)
    requires WellServed(server, limit) && !r.Filter?
    ensures Correct(server, limit, Written(Showing(server.first, [None]), r, p)) <==> AnswersFor(server, limit, r, p)
    ensures AnswersFor(server, limit, r, p) && r.Next? ==> p.data == Slice(server.rows, limit, 1)
  {
    NextPage(server, limit, None);
    if r.Next? && r.cursor in server.more {
      NextPage(server, limit, Some(r.cursor));
    }
  }

  // The filter's first page as the last answer is right, whatever was written before.
  lemma FilterAnsweredLast<T, C(!new)>(server: Server<T, C>, limit: nat, v: View<T, C>, key: string)
    requires WellServed(server, limit)
    ensures Correct(server, limit, Written(v, Filter(key, false), server.first))
  {
  }

  lemma NavigationThenFilter<T, C>(
      servers: map<string, Server<T, C>>, limit: nat, s: State<T, C>, e: Event, key: string)
    requires Rested(s) && Navigates(s, limit, e) && key != s.filterKey
    ensures var r, sent := RequestOf(s, limit, e), Run(servers, s, [e, ChangeFilter(key)]);
            var t := Run(servers, sent, [Succeed(s.issued + 1), Succeed(s.issued)]);
            && t.view == Written(Showing(Answer(servers, Filter(key, false)), [None]), r, Answer(servers, r))
            && !t.loading && NoneLive(t) && t.filterKey == key
  {
    var r := RequestOf(s, limit, e);
    RunTwo(servers, s, e, ChangeFilter(key));
    var sent := Changed(Send(s, r), key);
    assert sent.requests[s.issued + 1] == Filter(key, false) && sent.requests[s.issued] == r;
    TwoAnswered(servers, s, sent, s.issued + 1, s.issued);
  }

  lemma NavigationBeforeFilter<T, C>(
      servers: map<string, Server<T, C>>, limit: nat, s: State<T, C>, e: Event, key: string)
    requires Rested(s) && Navigates(s, limit, e) && key != s.filterKey
    ensures var r, sent, q := RequestOf(s, limit, e), Run(servers, s, [e, ChangeFilter(key)]), Filter(key, false);
            Run(servers, sent, [Succeed(s.issued), Succeed(s.issued + 1)]).view ==
            Written(Written(s.view, r, Answer(servers, r)), q, Answer(servers, q))
  {
    var r := RequestOf(s, limit, e);
    RunTwo(servers, s, e, ChangeFilter(key));
    var sent := Changed(Send(s, r), key);
    assert sent.requests[s.issued + 1] == Filter(key, false) && sent.requests[s.issued] == r;
    TwoAnswered(servers, s, sent, s.issued, s.issued + 1);
  }

  /**
   * A filter that changes while a navigation is on its way: its own answer coming
   * last is always right; the navigation's coming last is right exactly when the old
   * filter's answer happens to be the new filter's first page, for a refresh, or
   * its second, under the same cursor, for next; never for previous.
   */
  lemma StaleNavigationIff<T, C(!new)>(
      servers: map<string, Server<T, C>>, limit: nat, s: State<T, C>, e: Event, key: string)
    requires AllServed(servers, limit) && Good(servers, limit, s) && NoneLive(s) && Navigates(s, limit, e)
    requires key in servers && key != s.filterKey
    ensures var r, sent := RequestOf(s, limit, e), Run(servers, s, [e, ChangeFilter(key)]);
            && Correct(servers[key], limit, Run(servers, sent, [Succeed(s.issued), Succeed(s.issued + 1)]).view)
            && (Correct(servers[key], limit, Run(servers, sent, [Succeed(s.issued + 1), Succeed(s.issued)]).view) <==>
                AnswersFor(servers[key], limit, r, Answer(servers, r)))
  {
    var r := RequestOf(s, limit, e);
    NavigationThenFilter(servers, limit, s, e, key);
    NavigationBeforeFilter(servers, limit, s, e, key);
    assert WellServed(servers[key], limit);
    LateAnswerIff(servers[key], limit, r, Answer(servers, r));
    FilterAnsweredLast(servers[key], limit, Written(s.view, r, Answer(servers, r)), key);
  }

  /**
   * Why a filter must not change while a page is on its way: the late answer
   * carries no cancellation flag, so it replaces the new filter's page with the
   * old filter's, under page number 2, 0 or 1, and nothing is left to put it right.
   */
  lemma StaleNavigationWins<T, C(!new)>(
      servers: map<string, Server<T, C>>, limit: nat, s: State<T, C>, e: Event, key: string)
    requires AllServed(servers, limit) && Good(servers, limit, s) && NoneLive(s) && Navigates(s, limit, e)
    requires key in servers && key != s.filterKey
    ensures var sent := Run(servers, s, [e, ChangeFilter(key)]);
            var t := Run(servers, sent, [Succeed(s.issued + 1), Succeed(s.issued)]);
            var stale, page := servers[s.filterKey].rows, PageOf(s.view);
            && t.filterKey == key && !t.loading && NoneLive(t)
            && (e == ClickNext ==> t.view.data == Slice(stale, limit, page) && PageOf(t.view) == 2)
            && (e == ClickPrevious ==> page >= 2 && t.view.data == Slice(stale, limit, page - 2) && PageOf(t.view) == 0)
            && (e == ClickRefresh ==> page >= 1 && t.view.data == Slice(stale, limit, page - 1) && PageOf(t.view) == 1)
  {
    OnlyRefreshesAtPage(servers, limit, s);
    NavigationThenFilter(servers, limit, s, e, key);
    NavigatedRows(servers, limit, s, e);
  }

  // A navigation with the old view's cursor, sent to the new filter's list.
  lemma FilterThenNavigation<T, C>(
      servers: map<string, Server<T, C>>, limit: nat, s: State<T, C>, e: Event, key: string)
    requires Rested(s) && Navigates(s, limit, e) && key != s.filterKey
    ensures var q, sent := RequestOf(s.(filterKey := key), limit, e), Run(servers, s, [ChangeFilter(key), e]);
            var r, t := Filter(key, false), Run(servers, sent, [Succeed(s.issued), Succeed(s.issued + 1)]);
            && t.view == Written(Showing(Answer(servers, r), [None]), q, Answer(servers, q))
            && !t.loading && NoneLive(t) && t.filterKey == key
            && Run(servers, sent, [Succeed(s.issued + 1), Succeed(s.issued)]).view ==
               Written(Written(s.view, q, Answer(servers, q)), r, Answer(servers, r))
  {
    var q := RequestOf(s.(filterKey := key), limit, e);
    RunTwo(servers, s, ChangeFilter(key), e);
    var sent := Send(Changed(s, key), q);
    assert sent.requests[s.issued] == Filter(key, false) && sent.requests[s.issued + 1] == q;
    TwoAnswered(servers, s, sent, s.issued, s.issued + 1);
    TwoAnswered(servers, s, sent, s.issued + 1, s.issued);
  }

  /**
   * A navigation while a filter's first page is on its way asks the new filter for
   * a cursor of the old one's list: its answer coming first is always right; coming
   * last it is right exactly when it is the new filter's first page, for a refresh,
   * or its second, for next; never for previous. A refresh of the old first page is
   * right, and one with a cursor the new list issued too is wrong while that list
   * has more than a page.
   */
  lemma NavigationUndoesFilterIff<T, C(!new)>(
      servers: map<string, Server<T, C>>, limit: nat, s: State<T, C>, e: Event, key: string)
    requires AllServed(servers, limit) && Good(servers, limit, s) && NoneLive(s) && Navigates(s, limit, e)
    requires key in servers && key != s.filterKey
    ensures var q, sent := RequestOf(s.(filterKey := key), limit, e), Run(servers, s, [ChangeFilter(key), e]);
            var t, server := Run(servers, sent, [Succeed(s.issued), Succeed(s.issued + 1)]), servers[key];
            && !t.loading && NoneLive(t) && t.filterKey == key
            && Correct(server, limit, Run(servers, sent, [Succeed(s.issued + 1), Succeed(s.issued)]).view)
            && (Correct(server, limit, t.view) <==> AnswersFor(server, limit, q, Fetch(server, CursorOf(q))))
            && (e == ClickRefresh && PageOf(s.view) == 1 ==> Correct(server, limit, t.view))
            && (e == ClickRefresh && LaterPage(server, limit, CursorOf(q)) ==> !Correct(server, limit, t.view))
  {
    var q, server := RequestOf(s.(filterKey := key), limit, e), servers[key];
    OnlyRefreshesAtPage(servers, limit, s);
    FilterThenNavigation(servers, limit, s, e, key);
    assert WellServed(server, limit) && Answer(servers, q) == Fetch(server, CursorOf(q));
    LateAnswerIff(server, limit, q, Answer(servers, q));
    FilterAnsweredLast(server, limit, Written(s.view, q, Answer(servers, q)), key);
    if e == ClickRefresh && LaterPage(server, limit, CursorOf(q)) {
      LaterPageIsNotFirst(server, limit, CursorOf(q));
    }
  }

  // The list has more than one page, and the cursor is for one after the first.
  predicate LaterPage<T, C>(server: Server<T, C>, limit: nat, c: Option<C>) {
    Issued(server, c) && PageNo(server, c) > 0 && limit < |server.rows|
  }

  lemma LaterPageIsNotFirst<T, C(!new)>(server: Server<T, C>, limit: nat, c: Option<C>)
    requires WellServed(server, limit) && LaterPage(server, limit, c)
    ensures Fetch(server, c) != server.first
  {
    NextPage(server, limit, c);
    NextPage(server, limit, None);
    assert 1 * limit == limit;
  }

  // ---- A filter's own request ----------------------------------------------------------------

  /**
   * Why fetchPage must not change on its own while a filter request is on its
   * way: the cleanup cancels the request, no other replaces it, and its answer
   * leaves the screen loading.
   */
  lemma RenewedFetchStaysLoading<T, C>(servers: map<string, Server<T, C>>, limit: nat, s: State<T, C>, id: nat)
    requires Good(servers, limit, s) && id in s.requests && LiveFilter(s.requests[id])
    ensures var t := Run(servers, s, [RenewFetch, Succeed(id)]);
            t.loading && NoneLive(t) && t.view == s.view
  {
    var live :| OnlyLive(s, live) && Awaited(servers, limit, s, s.requests[live]);
    RunTwo(servers, s, RenewFetch, Succeed(id));
  }

  /**
   * Why the newest filter's request must not fail: the old rows stay on the screen,
   * at rest under the new filter. On the first page that is right exactly when
   * both lists start with the same page.
   */
  lemma FailedFilterKeepsRows<T, C(!new)>(
      servers: map<string, Server<T, C>>, limit: nat, s: State<T, C>, key: string)
    requires Good(servers, limit, s) && NoneLive(s) && key in servers && key != s.filterKey
    ensures var t := Run(servers, s, [ChangeFilter(key), Fail(s.issued)]);
            && t.view == s.view && !t.loading && NoneLive(t) && t.filterKey == key
            && (PageOf(s.view) == 1 ==>
                  (Correct(servers[key], limit, t.view) <==> servers[key].first == servers[s.filterKey].first))
  {
    OnlyRefreshesAtPage(servers, limit, s);
    RunTwo(servers, s, ChangeFilter(key), Fail(s.issued));
  }
}

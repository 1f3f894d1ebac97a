/**
 * The pagination hook (frontend/hooks/use-cursor-pagination.ts): a cursor
 * stack, and requests whose answers arrive later and in any order. Answers to
 * superseded filter requests are dropped by a cancellation flag; answers to
 * next, previous and refresh carry none.
 */
module CursorPagination {
  import opened Arithmetic
  import opened Wrappers
  import opened Paging

  datatype View<T, C> = View(data: seq<T>, total: nat, next: Option<C>, stack: seq<Option<C>>)

  // A request on its way, with what its closure captured.
  datatype Request<C> =
    | Filter(key: string, cancelled: bool)
    | Next(key: string, cursor: C)
    | Previous(key: string, back: Option<C>)
    | Refresh(key: string, current: Option<C>)

  datatype State<T, C> = State(
    view: View<T, C>, loading: bool, filterKey: string, requests: map<nat, Request<C>>, issued: nat)

  datatype Event =
    | ChangeFilter(key: string)
    | RenewFetch              // fetchPage changes while the filter does not
    | ClickNext | ClickPrevious | ClickRefresh
    | Succeed(id: nat) | Fail(id: nat)

  function PageOf<T, C>(v: View<T, C>): nat {
    |v.stack|
  }

  function ShowingFrom<T, C>(v: View<T, C>, limit: nat): int {
    if v.total == 0 then 0 else (PageOf(v) - 1) * limit + 1
  }

  function ShowingTo<T, C>(v: View<T, C>, limit: nat): int {
    (PageOf(v) - 1) * limit + |v.data|
  }

  predicate HasNext<T, C>(v: View<T, C>, limit: nat) {
    v.next.Some? && ShowingTo(v, limit) != v.total
  }

  predicate HasPrevious<T, C>(v: View<T, C>) {
    PageOf(v) > 1
  }

  predicate Cancelled<C>(r: Request<C>) {
    r.Filter? && r.cancelled
  }

  // The effect's cleanup.
  function CancelFilters<C>(requests: map<nat, Request<C>>): map<nat, Request<C>> {
    map id | id in requests :: if requests[id].Filter? then requests[id].(cancelled := true) else requests[id]
  }

  function Send<T, C>(s: State<T, C>, r: Request<C>): State<T, C> {
    s.(loading := true, requests := s.requests[s.issued := r], issued := s.issued + 1)
  }

  function Showing<T, C>(p: Page<T, C>, stack: seq<Option<C>>): View<T, C> {
    View(p.data, p.total, p.next, stack)
  }

  // The view once the answer p to request r is written.
  function Written<T, C>(v: View<T, C>, r: Request<C>, p: Page<T, C>): View<T, C> {
    match r
    case Filter(_, _) => Showing(p, [None])
    case Next(_, cursor) => Showing(p, v.stack + [Some(cursor)])
    case Previous(_, _) => Showing(p, if v.stack == [] then [] else v.stack[..|v.stack| - 1])
    case Refresh(_, _) => Showing(p, v.stack)
  }

  function Changed<T, C>(s: State<T, C>, key: string): State<T, C> {
    if key == s.filterKey then s
    else Send(s.(filterKey := key, requests := CancelFilters(s.requests)), Filter(key, false))
  }

  function Renewed<T, C>(s: State<T, C>): State<T, C> {
    s.(requests := CancelFilters(s.requests))
  }

  function NextClicked<T, C>(s: State<T, C>): State<T, C> {
    if s.view.next.None? then s else Send(s, Next(s.filterKey, s.view.next.value))
  }

  function PreviousClicked<T, C>(s: State<T, C>): State<T, C> {
    if !HasPrevious(s.view) then s else Send(s, Previous(s.filterKey, s.view.stack[|s.view.stack| - 2]))
  }

  function Top<C>(stack: seq<Option<C>>): Option<C> {
    if stack == [] then None else stack[|stack| - 1]
  }

  function RefreshClicked<T, C>(s: State<T, C>): State<T, C> {
    Send(s, Refresh(s.filterKey, Top(s.view.stack)))
  }

  function Answered<T, C>(s: State<T, C>, id: nat, p: Page<T, C>): State<T, C>
    requires id in s.requests
  {
    var r, rest := s.requests[id], s.requests - {id};
    if Cancelled(r) then s.(requests := rest)
    else s.(view := Written(s.view, r, p), loading := false, requests := rest)
  }

  function Failed<T, C>(s: State<T, C>, id: nat): State<T, C>
    requires id in s.requests
  {
    var rest := s.requests - {id};
    if Cancelled(s.requests[id]) then s.(requests := rest) else s.(loading := false, requests := rest)
  }

  // The hook itself, one method per handler, one for each way a request ends.
  class UseCursorPagination<T, C> {
    var data: seq<T>
    var total: nat
    var nextCursor: Option<C>
    var cursorStack: seq<Option<C>>
    var loading: bool
    var prevFilterKey: string
    var requests: map<nat, Request<C>>
    var issued: nat

    ghost function Now(): State<T, C>
      reads this
    {
      State(View(data, total, nextCursor, cursorStack), loading, prevFilterKey, requests, issued)
    }

    constructor (initial: Page<T, C>, key: string)
      ensures Now() == State(Showing(initial, [None]), false, key, map[], 0)
    {
      data, total, nextCursor := initial.data, initial.total, initial.next;
      cursorStack, loading, prevFilterKey := [None], false, key;
      requests, issued := map[], 0;
    }

    method Start(r: Request<C>)
      modifies this`loading, this`requests, this`issued
      ensures Now() == Send(old(Now()), r)
    {
      loading := true;
      requests := requests[issued := r];
      issued := issued + 1;
    }

    method OnFilterChange(key: string)
      modifies this
      ensures Now() == Changed(old(Now()), key)
    {
      if prevFilterKey == key { return; }
      requests := CancelFilters(requests);
      prevFilterKey := key;
      Start(Filter(key, false));
    }

    method OnFetchChange()
      modifies this
      ensures Now() == Renewed(old(Now()))
    {
      requests := CancelFilters(requests);
    }

    method GoNext()
      modifies this
      ensures Now() == NextClicked(old(Now()))
    {
      if nextCursor.Some? {
        Start(Next(prevFilterKey, nextCursor.value));
      }
    }

    method GoPrevious()
      modifies this
      ensures Now() == PreviousClicked(old(Now()))
    {
      if |cursorStack| > 1 {
        Start(Previous(prevFilterKey, cursorStack[|cursorStack| - 2]));
      }
    }

    method RefreshPage()
      modifies this
      ensures Now() == RefreshClicked(old(Now()))
    {
      Start(Refresh(prevFilterKey, Top(cursorStack)));
    }

    method OnSuccess(id: nat, result: Page<T, C>)
      requires id in requests
      modifies this
      ensures Now() == Answered(old(Now()), id, result)
    {
      var r := requests[id];
      requests := requests - {id};
      if r.Filter? && r.cancelled { return; }
      match r {
        case Filter(_, _) => cursorStack := [None];
        case Next(_, cursor) => cursorStack := cursorStack + [Some(cursor)];
        case Previous(_, _) =>
          if cursorStack != [] { cursorStack := cursorStack[..|cursorStack| - 1]; }
        case Refresh(_, _) =>
      }
      data, total, nextCursor := result.data, result.total, result.next;
      loading := false;
    }

    method OnFailure(id: nat)
      requires id in requests
      modifies this
      ensures Now() == Failed(old(Now()), id)
    {
      var r := requests[id];
      requests := requests - {id};
      if !(r.Filter? && r.cancelled) {
        loading := false;
      }
    }
  }

  // The cursor a request fetches.
  function CursorOf<C>(r: Request<C>): Option<C> {
    match r
    case Filter(_, _) => None
    case Next(_, c) => Some(c)
    case Previous(_, c) => c
    case Refresh(_, c) => c
  }

  // What the server answers to a request; each filter key has its own list.
  function Answer<T, C>(servers: map<string, Server<T, C>>, r: Request<C>): Page<T, C> {
    if r.key !in servers then Page([], 0, None) else Fetch(servers[r.key], CursorOf(r))
  }

  function Step<T, C>(servers: map<string, Server<T, C>>, s: State<T, C>, e: Event): State<T, C> {
    match e
    case ChangeFilter(key) => Changed(s, key)
    case RenewFetch => Renewed(s)
    case ClickNext => NextClicked(s)
    case ClickPrevious => PreviousClicked(s)
    case ClickRefresh => RefreshClicked(s)
    case Succeed(id) => if id in s.requests then Answered(s, id, Answer(servers, s.requests[id])) else s
    case Fail(id) => if id in s.requests then Failed(s, id) else s
  }

  predicate LiveFilter<C>(r: Request<C>) {
    r.Filter? && !r.cancelled
  }

  // No request that will still write is outstanding.
  ghost predicate NoneLive<T, C>(s: State<T, C>) {
    forall id :: id in s.requests ==> Cancelled(s.requests[id])
  }

  // The events over which the view stays right: a page is turned with nothing
  // else outstanding, and the list is refreshed with nothing but refreshes
  // outstanding; the filter changes with no navigation on its way; the newest
  // filter's request does not fail and keeps its fetch function. The screens do
  // not enforce this: the footer looks at loading alone, and refreshing looks
  // at nothing. DisturbedPagination shows what happens otherwise, and exactly when.
  ghost predicate Undisturbed<T, C>(servers: map<string, Server<T, C>>, limit: nat, s: State<T, C>, e: Event) {
    match e
    case ChangeFilter(key) =>
      key == s.filterKey || (key in servers && forall id :: id in s.requests ==> s.requests[id].Filter?)
    case RenewFetch => forall id :: id in s.requests ==> !LiveFilter(s.requests[id])
    case ClickNext => NoneLive(s) && HasNext(s.view, limit)
    case ClickPrevious => NoneLive(s) && HasPrevious(s.view)
    case ClickRefresh => forall id :: id in s.requests ==> Cancelled(s.requests[id]) || s.requests[id].Refresh?
    case Succeed(id) => id in s.requests
    case Fail(id) => id in s.requests && !LiveFilter(s.requests[id])
  }

  // The view is a page of the server's list, reached by its own cursors.
  ghost predicate Correct<T, C>(server: Server<T, C>, limit: nat, v: View<T, C>) {
    && v.stack != [] && v.stack[0] == None
    && (forall i :: 0 <= i < |v.stack| ==> Issued(server, v.stack[i]) && PageNo(server, v.stack[i]) == i)
    && Fetch(server, v.stack[|v.stack| - 1]) == Page(v.data, v.total, v.next)
    && (|v.stack| > 1 ==> (|v.stack| - 1) * limit < |server.rows|)
  }

  // The view shows rows from..to of the list, counted from one, and offers
  // next exactly while rows remain.
  ghost predicate Exact<T, C>(rows: seq<T>, limit: nat, v: View<T, C>) {
    var from, to := ShowingFrom(v, limit), ShowingTo(v, limit);
    && v.total == |rows|
    && to == Min(PageOf(v) * limit, |rows|)
    && (HasNext(v, limit) <==> PageOf(v) * limit < |rows|)
    && (if rows == [] then from == 0 && to == 0 && v.data == []
        else 1 <= from <= to && v.data == rows[from - 1..to])
  }

  /** What a correct view shows, in terms of the list alone. */
  lemma CorrectViewIsSlice<T, C(!new)>(server: Server<T, C>, limit: nat, v: View<T, C>)
    requires WellServed(server, limit) && Correct(server, limit, v)
    ensures PageOf(v) >= 1 && v.data == Slice(server.rows, limit, PageOf(v) - 1)
    ensures Exact(server.rows, limit, v)
  {
    var k := PageOf(v) - 1;
    NextPage(server, limit, v.stack[k]);
    ExactFrom(server.rows, limit, v, k, k * limit, (k + 1) * limit);
  }

  // The same, with the page's bounds named.
  lemma ExactFrom<T, C>(rows: seq<T>, limit: nat, v: View<T, C>, k: nat, lo: nat, hi: nat)
    requires limit > 0 && PageOf(v) == k + 1 && lo == k * limit && hi == (k + 1) * limit
    requires k > 0 ==> lo < |rows|
    requires v.data == rows[Min(lo, |rows|)..Min(hi, |rows|)] && v.total == |rows|
    requires (hi < |rows| ==> v.next.Some?) && (v.next.Some? ==> hi <= |rows|)
    ensures Exact(rows, limit, v)
  {
  }

  lemma MorePages(k: nat, limit: nat)
    ensures (k + 1) * limit == k * limit + limit
  {
  }

  ghost predicate AllServed<T, C(!new)>(servers: map<string, Server<T, C>>, limit: nat) {
    forall key :: key in servers ==> WellServed(servers[key], limit)
  }

  // Every request but the one named is a cancelled filter request.
  ghost predicate OnlyLive<T, C>(s: State<T, C>, id: nat) {
    id in s.requests && forall other :: other in s.requests && other != id ==> Cancelled(s.requests[other])
  }

  // A page turn captured from the view that is still showing.
  ghost predicate Turning<T, C>(s: State<T, C>, limit: nat, r: Request<C>) {
    match r
    case Filter(_, _) => false
    case Next(key, c) => key == s.filterKey && s.view.next == Some(c) && HasNext(s.view, limit)
    case Previous(key, c) => key == s.filterKey && |s.view.stack| > 1 && c == s.view.stack[|s.view.stack| - 2]
    case Refresh(_, _) => false
  }

  // On a page of the current filter's list, with at most refreshes of that page outstanding.
  ghost predicate AtPage<T, C>(servers: map<string, Server<T, C>>, limit: nat, s: State<T, C>)
    requires s.filterKey in servers
  {
    && Correct(servers[s.filterKey], limit, s.view)
    && (forall id :: id in s.requests ==>
          Cancelled(s.requests[id]) || s.requests[id] == Refresh(s.filterKey, Top(s.view.stack)))
    && (NoneLive(s) ==> !s.loading)
  }

  // At a page; or waiting for the newest filter's first page; or for the page turned to.
  ghost predicate Good<T, C>(servers: map<string, Server<T, C>>, limit: nat, s: State<T, C>) {
    && s.filterKey in servers
    && (forall id :: id in s.requests ==> id < s.issued)
    && (AtPage(servers, limit, s) ||
        (s.loading && exists id :: OnlyLive(s, id) && Awaited(servers, limit, s, s.requests[id])))
  }

  ghost predicate Awaited<T, C>(
      servers: map<string, Server<T, C>>, limit: nat, s: State<T, C>, r: Request<C>)
    requires s.filterKey in servers
  {
    || r == Filter(s.filterKey, false)
    || (Correct(servers[s.filterKey], limit, s.view) && Turning(s, limit, r))
  }

  lemma NextKeepsCorrect<T, C(!new)>(server: Server<T, C>, limit: nat, v: View<T, C>, p: Page<T, C>)
    requires WellServed(server, limit) && Correct(server, limit, v) && HasNext(v, limit)
    requires p == Fetch(server, v.next)
    ensures Correct(server, limit, Showing(p, v.stack + [v.next]))
  {
    CorrectViewIsSlice(server, limit, v);
    NextPage(server, limit, v.stack[|v.stack| - 1]);
  }

  lemma PreviousKeepsCorrect<T, C(!new)>(server: Server<T, C>, limit: nat, v: View<T, C>, p: Page<T, C>)
    requires WellServed(server, limit) && Correct(server, limit, v) && |v.stack| > 1
    requires p == Fetch(server, v.stack[|v.stack| - 2])
    ensures Correct(server, limit, Showing(p, v.stack[..|v.stack| - 1]))
  {
  }

  // The awaited answer makes the view correct again.
  lemma AnswerIsCorrect<T, C(!new)>(
      servers: map<string, Server<T, C>>, limit: nat, s: State<T, C>, r: Request<C>)
    requires AllServed(servers, limit) && s.filterKey in servers && Awaited(servers, limit, s, r)
    ensures Correct(servers[s.filterKey], limit, Written(s.view, r, Answer(servers, r)))
  {
    var server, p := servers[s.filterKey], Answer(servers, r);
    assert WellServed(server, limit);
    match r {
      case Filter(_, _) =>
      case Next(_, _) => NextKeepsCorrect(server, limit, s.view, p);
      case Previous(_, _) => PreviousKeepsCorrect(server, limit, s.view, p);
      case Refresh(_, _) =>
    }
  }

  lemma SendIsAwaited<T, C>(servers: map<string, Server<T, C>>, limit: nat, s: State<T, C>, r: Request<C>)
    requires s.filterKey in servers && (forall id :: id in s.requests ==> id < s.issued) && NoneLive(s)
    requires Awaited(servers, limit, s, r)
    ensures Good(servers, limit, Send(s, r))
  {
    assert OnlyLive(Send(s, r), s.issued);
  }

  lemma RefreshStaysAtPage<T, C>(servers: map<string, Server<T, C>>, limit: nat, s: State<T, C>)
    requires s.filterKey in servers && AtPage(servers, limit, s)
    ensures AtPage(servers, limit, RefreshClicked(s))
  {
    assert !Cancelled(RefreshClicked(s).requests[s.issued]);
  }

  // Where only refreshes are outstanding the view is at its page.
  lemma OnlyRefreshesAtPage<T, C>(servers: map<string, Server<T, C>>, limit: nat, s: State<T, C>)
    requires Good(servers, limit, s)
    requires forall id :: id in s.requests ==> Cancelled(s.requests[id]) || s.requests[id].Refresh?
    ensures AtPage(servers, limit, s)
  {
  }

  lemma StepKeepsGood<T, C(!new)>(servers: map<string, Server<T, C>>, limit: nat, s: State<T, C>, e: Event)
    requires AllServed(servers, limit) && Good(servers, limit, s) && Undisturbed(servers, limit, s, e)
    ensures Good(servers, limit, Step(servers, s, e))
  {
    match e {
      case ChangeFilter(key) =>
        if key != s.filterKey {
          var cleaned := s.(filterKey := key, requests := CancelFilters(s.requests));
          SendIsAwaited(servers, limit, cleaned, Filter(key, false));
        }
      case RenewFetch => RenewKeepsGood(servers, limit, s);
      case ClickNext =>
        OnlyRefreshesAtPage(servers, limit, s);
        SendIsAwaited(servers, limit, s, Next(s.filterKey, s.view.next.value));
      case ClickPrevious =>
        OnlyRefreshesAtPage(servers, limit, s);
        SendIsAwaited(servers, limit, s, Previous(s.filterKey, s.view.stack[|s.view.stack| - 2]));
      case ClickRefresh =>
        OnlyRefreshesAtPage(servers, limit, s);
        RefreshStaysAtPage(servers, limit, s);
      case Succeed(id) => EndKeepsGood(servers, limit, s, id, true);
      case Fail(id) => EndKeepsGood(servers, limit, s, id, false);
    }
  }

  lemma RenewKeepsGood<T, C>(servers: map<string, Server<T, C>>, limit: nat, s: State<T, C>)
    requires Good(servers, limit, s)
    requires forall id :: id in s.requests ==> !LiveFilter(s.requests[id])
    ensures Good(servers, limit, Renewed(s))
  {
    assert Renewed(s).requests == s.requests;
  }

  // The end of a request at a page leaves it there: a refresh shows the same page again.
  lemma EndStaysAtPage<T, C(!new)>(
      servers: map<string, Server<T, C>>, limit: nat, s: State<T, C>, id: nat, success: bool)
    requires s.filterKey in servers && AtPage(servers, limit, s) && id in s.requests
    ensures AtPage(servers, limit, if success then Answered(s, id, Answer(servers, s.requests[id])) else Failed(s, id))
  {
    var t := if success then Answered(s, id, Answer(servers, s.requests[id])) else Failed(s, id);
    assert t.view == s.view;
    if Cancelled(s.requests[id]) && NoneLive(t) {
      forall other | other in s.requests ensures Cancelled(s.requests[other]) {
        if other != id { assert other in t.requests; }
      }
    }
  }

  lemma EndKeepsGood<T, C(!new)>(
      servers: map<string, Server<T, C>>, limit: nat, s: State<T, C>, id: nat, success: bool)
    requires AllServed(servers, limit) && Good(servers, limit, s) && id in s.requests
    requires success || !LiveFilter(s.requests[id])
    ensures Good(servers, limit, if success then Answered(s, id, Answer(servers, s.requests[id])) else Failed(s, id))
  {
    if AtPage(servers, limit, s) {
      EndStaysAtPage(servers, limit, s, id, success);
    } else {
      var live :| OnlyLive(s, live) && Awaited(servers, limit, s, s.requests[live]);
      if live != id {
        assert OnlyLive(s.(requests := s.requests - {id}), live);
      } else if success {
        AnswerIsCorrect(servers, limit, s, s.requests[id]);
      }
    }
  }

  function Run<T, C>(servers: map<string, Server<T, C>>, s: State<T, C>, events: seq<Event>): State<T, C> {
    if events == [] then s else Step(servers, Run(servers, s, events[..|events| - 1]), events[|events| - 1])
  }

  ghost predicate AllUndisturbed<T, C>(
      servers: map<string, Server<T, C>>, limit: nat, s: State<T, C>, events: seq<Event>)
  {
    events == [] ||
    (var before := events[..|events| - 1];
     AllUndisturbed(servers, limit, s, before) &&
     Undisturbed(servers, limit, Run(servers, s, before), events[|events| - 1]))
  }

  lemma {:induction false} RunKeepsGood<T, C(!new)>(
      servers: map<string, Server<T, C>>, limit: nat, s: State<T, C>, events: seq<Event>)
    requires AllServed(servers, limit) && Good(servers, limit, s) && AllUndisturbed(servers, limit, s, events)
    ensures Good(servers, limit, Run(servers, s, events))
  {
    if events != [] {
      RunKeepsGood(servers, limit, s, events[..|events| - 1]);
      StepKeepsGood(servers, limit, Run(servers, s, events[..|events| - 1]), events[|events| - 1]);
    }
  }

  /**
   * After any undisturbed run of filter changes, page turns, refreshes and answers
   * in any order: whenever nothing is loading the view is a slice of the newest
   * filter's list and next is offered exactly while rows remain; and nothing is
   * loading once everything is answered.
   */
  lemma QuietViewIsCurrent<T, C(!new)>(
      servers: map<string, Server<T, C>>, limit: nat, key: string, events: seq<Event>)
    requires AllServed(servers, limit) && key in servers
    requires var start := State(Showing(servers[key].first, [None]), false, key, map[], 0);
             AllUndisturbed(servers, limit, start, events)
    ensures var s := Run(servers, State(Showing(servers[key].first, [None]), false, key, map[], 0), events);
            && s.filterKey in servers
            && (!s.loading ==>
                  PageOf(s.view) >= 1 && Exact(servers[s.filterKey].rows, limit, s.view))
            && (NoneLive(s) ==> !s.loading)
  {
    var start := State(Showing(servers[key].first, [None]), false, key, map[], 0);
    RunKeepsGood(servers, limit, start, events);
    var s := Run(servers, start, events);
    if !s.loading {
      CorrectViewIsSlice(servers[s.filterKey], limit, s.view);
    }
  }

  // The event makes the hook send a request.
  predicate Sends<T, C>(s: State<T, C>, e: Event) {
    || (e.ChangeFilter? && e.key != s.filterKey)
    || (e == ClickNext && s.view.next.Some?) || (e == ClickPrevious && PageOf(s.view) > 1) || e == ClickRefresh
  }

  // The event ends a request that was not cancelled.
  predicate Ends<T, C>(s: State<T, C>, e: Event) {
    && ((e.Succeed? && e.id in s.requests && !Cancelled(s.requests[e.id])) ||
        (e.Fail? && e.id in s.requests && !Cancelled(s.requests[e.id])))
  }

  // A request was sent after the last one that ended uncancelled.
  predicate SentSince<T, C>(servers: map<string, Server<T, C>>, s: State<T, C>, events: seq<Event>) {
    events != [] &&
    (var before, e := events[..|events| - 1], events[|events| - 1];
     Sends(Run(servers, s, before), e) ||
     (!Ends(Run(servers, s, before), e) && SentSince(servers, s, before)))
  }

  /**
   * Over any run from the initial state the hook shows that it is loading exactly
   * when a request was sent after the last answer or failure that was not cancelled.
   */
  lemma {:induction false} LoadingIff<T, C>(
      servers: map<string, Server<T, C>>, first: Page<T, C>, key: string, events: seq<Event>)
    ensures var start := State(Showing(first, [None]), false, key, map[], 0);
            Run(servers, start, events).loading <==> SentSince(servers, start, events)
  {
    if events != [] {
      var start := State(Showing(first, [None]), false, key, map[], 0);
      var before, e := events[..|events| - 1], events[|events| - 1];
      LoadingIff(servers, first, key, before);
      StepLoads(servers, Run(servers, start, before), e);
    }
  }

  lemma StepLoads<T, C>(servers: map<string, Server<T, C>>, s: State<T, C>, e: Event)
    ensures Step(servers, s, e).loading <==> Sends(s, e) || (!Ends(s, e) && s.loading)
  {
  }

  /** The newest filter's answer puts its first page on screen, whatever was there. */
  lemma NewestFilterWins<T, C>(servers: map<string, Server<T, C>>, limit: nat, s: State<T, C>, id: nat)
    requires Good(servers, limit, s) && id in s.requests && LiveFilter(s.requests[id])
    ensures s.requests[id].key == s.filterKey
    ensures var t := Step(servers, s, Succeed(id));
            t.view == Showing(servers[s.filterKey].first, [None]) && !t.loading && NoneLive(t)
  {
  }

  /** Answers to superseded filters change nothing on screen. */
  lemma SupersededIsDropped<T, C>(servers: map<string, Server<T, C>>, s: State<T, C>, key: string, id: nat)
    requires id in s.requests && s.requests[id].Filter? && key != s.filterKey && id < s.issued
    ensures var t := Step(servers, s, ChangeFilter(key));
            id in t.requests && Step(servers, t, Succeed(id)).view == t.view &&
            Step(servers, t, Succeed(id)).loading == t.loading
  {
  }

  lemma RunTwo<T, C>(servers: map<string, Server<T, C>>, s: State<T, C>, a: Event, b: Event)
    ensures Run(servers, s, [a, b]) == Step(servers, Step(servers, s, a), b)
  {
    assert [a, b][..1] == [a] && [a][..0] == [];
    assert Run(servers, s, [a]) == Step(servers, s, a);
  }

  // One navigation answered at rest: the request comes and goes, the answer stays.
  lemma SentAndAnswered<T, C>(s: State<T, C>, r: Request<C>, p: Page<T, C>)
    requires (forall id :: id in s.requests ==> id < s.issued) && !Cancelled(r)
    ensures s.issued in Send(s, r).requests && Send(s, r).requests[s.issued] == r
    ensures Answered(Send(s, r), s.issued, p) ==
            s.(view := Written(s.view, r, p), loading := false, issued := s.issued + 1)
  {
  }

  /** Next and then previous, each answered, restores everything but the request counter. */
  lemma NextThenPrevious<T, C(!new)>(servers: map<string, Server<T, C>>, limit: nat, s: State<T, C>)
    requires AllServed(servers, limit) && Good(servers, limit, s) && !s.loading && HasNext(s.view, limit)
    ensures var there := Run(servers, s, [ClickNext, Succeed(s.issued)]);
            var back := Run(servers, there, [ClickPrevious, Succeed(there.issued)]);
            && PageOf(there.view) == PageOf(s.view) + 1
            && back == s.(issued := back.issued)
  {
    var r := Next(s.filterKey, s.view.next.value);
    RunTwo(servers, s, ClickNext, Succeed(s.issued));
    SentAndAnswered(s, r, Answer(servers, r));
    var there := Run(servers, s, [ClickNext, Succeed(s.issued)]);
    var top := Top(s.view.stack);
    assert there.view.stack == s.view.stack + [s.view.next];
    assert there.view.stack[|there.view.stack| - 2] == top;
    var q := Previous(s.filterKey, top);
    RunTwo(servers, there, ClickPrevious, Succeed(there.issued));
    SentAndAnswered(there, q, Answer(servers, q));
    assert there.view.stack[..|there.view.stack| - 1] == s.view.stack;
  }

  // The pages shown by clicking next from the first page, as often as it is offered.
  ghost function PagesByNext<T, C(!new)>(server: Server<T, C>, limit: nat, v: View<T, C>): seq<T>
    requires WellServed(server, limit) && Correct(server, limit, v)
    decreases |server.rows| - PageOf(v) * limit
  {
    if HasNext(v, limit) then
      NextKeepsCorrect(server, limit, v, Fetch(server, v.next));
      CorrectViewIsSlice(server, limit, v);
      MorePages(PageOf(v), limit);
      v.data + PagesByNext(server, limit, Showing(Fetch(server, v.next), v.stack + [v.next]))
    else v.data
  }

  lemma Joined<T>(before: seq<T>, page: seq<T>, rest: seq<T>, upTo: seq<T>, all: seq<T>)
    requires before + page == upTo && upTo + rest == all
    ensures before + (page + rest) == all
  {
  }

  lemma {:induction false} PagesFromHere<T, C(!new)>(server: Server<T, C>, limit: nat, v: View<T, C>, k: nat)
    requires WellServed(server, limit) && Correct(server, limit, v) && PageOf(v) == k + 1
    ensures server.rows[..Min(k * limit, |server.rows|)] + PagesByNext(server, limit, v) == server.rows
    decreases |server.rows| - k * limit
  {
    CorrectViewIsSlice(server, limit, v);
    SliceExtends(server.rows, limit, k);
    var before := server.rows[..Min(k * limit, |server.rows|)];
    var upTo := server.rows[..Min((k + 1) * limit, |server.rows|)];
    if HasNext(v, limit) {
      var w := Showing(Fetch(server, v.next), v.stack + [v.next]);
      NextKeepsCorrect(server, limit, v, Fetch(server, v.next));
      MorePages(k, limit);
      PagesFromHere(server, limit, w, k + 1);
      Joined(before, v.data, PagesByNext(server, limit, w), upTo, server.rows);
    } else {
      assert upTo == server.rows;
    }
  }

  /**
   * Clicking through with next shows the whole list, page by page, in order:
   * the same rows that draining the endpoint collects.
   */
  lemma NextShowsEverything<T, C(!new)>(server: Server<T, C>, limit: nat)
    requires WellServed(server, limit)
    ensures Correct(server, limit, Showing(server.first, [None]))
    ensures PagesByNext(server, limit, Showing(server.first, [None])) == server.rows
  {
    var v := Showing(server.first, [None]);
    PagesFromHere(server, limit, v, 0);
    assert 0 * limit == 0;
    assert server.rows[..0] + PagesByNext(server, limit, v) == PagesByNext(server, limit, v);
  }
}

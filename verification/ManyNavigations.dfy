/**
 * Any number of page requests sent by the pagination hook
 * (frontend/hooks/use-cursor-pagination.ts:68-108) from one view, and answered in any order.
 */
module ManyNavigations {
  import opened Wrappers
  import opened Paging
  import opened CursorPagination
  import opened DisturbedPagination

  // How many entries of the cursor stack are still there, and how many were pushed on top.
  datatype Depth = Depth(kept: nat, pushed: nat)

  function Turned(d: Depth, e: Event): Depth {
    if e == ClickNext then Depth(d.kept, d.pushed + 1)
    else if e != ClickPrevious then d
    else if d.pushed > 0 then Depth(d.kept, d.pushed - 1)
    else if d.kept > 0 then Depth(d.kept - 1, 0)
    else d
  }

  // The depth of a stack of n entries after the answers to these clicks.
  function DepthAfter(n: nat, es: seq<Event>): Depth {
    if es == [] then Depth(n, 0) else Turned(DepthAfter(n, es[..|es| - 1]), es[|es| - 1])
  }

  // The stack ends as deep as the request answered last would alone leave it.
  predicate RightDepth(n: nat, es: seq<Event>)
    requires es != []
  {
    DepthAfter(n, es) == DepthAfter(n, [es[|es| - 1]])
  }

  predicate AllNavigate<T, C>(s: State<T, C>, limit: nat, es: seq<Event>) {
    forall e :: e in es ==> Navigates(s, limit, e)
  }

  // The view after the requests of these clicks, all made on the view of s, are answered in this order.
  function ViewAfter<T, C>(
      servers: map<string, Server<T, C>>, limit: nat, s: State<T, C>, es: seq<Event>): View<T, C>
    requires AllNavigate(s, limit, es)
  {
    if es == [] then s.view
    else
      var r := RequestOf(s, limit, es[|es| - 1]);
      Written(ViewAfter(servers, limit, s, es[..|es| - 1]), r, Answer(servers, r))
  }

  function StackOf<C>(stack: seq<Option<C>>, next: Option<C>, d: Depth): seq<Option<C>>
    requires d.kept <= |stack|
  {
    stack[..d.kept] + seq(d.pushed, _ => next)
  }

  lemma StackTurned<C>(stack: seq<Option<C>>, next: Option<C>, d: Depth, e: Event)
    requires d.kept <= |stack|
    ensures Turned(d, e).kept <= |stack|
    ensures var now, after := StackOf(stack, next, d), StackOf(stack, next, Turned(d, e));
            && (e == ClickNext ==> after == now + [next])
            && (e == ClickPrevious ==> after == if now == [] then [] else now[..|now| - 1])
  {
  }

  lemma {:induction false} StackAfter<T, C>(
      servers: map<string, Server<T, C>>, limit: nat, s: State<T, C>, es: seq<Event>)
    requires AllNavigate(s, limit, es)
    ensures var d := DepthAfter(|s.view.stack|, es);
            && d.kept <= |s.view.stack| && (d.pushed > 0 ==> HasNext(s.view, limit))
            && ViewAfter(servers, limit, s, es).stack == StackOf(s.view.stack, s.view.next, d)
  {
    if es != [] {
      var before, e := es[..|es| - 1], es[|es| - 1];
      StackAfter(servers, limit, s, before);
      assert e in es;
      StackTurned(s.view.stack, s.view.next, DepthAfter(|s.view.stack|, before), e);
    }
  }

  // The stack of a correct view holds no pushed cursor but the next page's at its own place.
  lemma CorrectDepth<T, C(!new)>(server: Server<T, C>, limit: nat, v: View<T, C>, w: View<T, C>, d: Depth)
    requires WellServed(server, limit) && Correct(server, limit, v) && Correct(server, limit, w)
    requires d.kept <= |v.stack| && w.stack == StackOf(v.stack, v.next, d)
    requires d.pushed > 0 ==> v.next.Some?
    ensures d.pushed == 0 || d == Depth(|v.stack|, 1)
  {
    if d.pushed > 0 {
      NextPage(server, limit, v.stack[|v.stack| - 1]);
      assert w.stack[d.kept] == v.next;
    }
  }

  /**
   * The view ends right exactly when the stack ends as deep as the request
   * answered last would alone leave it.
   */
  lemma AnswersIff<T, C(!new)>(
      servers: map<string, Server<T, C>>, limit: nat, s: State<T, C>, es: seq<Event>)
    requires AllServed(servers, limit) && s.filterKey in servers && Correct(servers[s.filterKey], limit, s.view)
    requires es != [] && AllNavigate(s, limit, es)
    ensures Correct(servers[s.filterKey], limit, ViewAfter(servers, limit, s, es)) <==> RightDepth(PageOf(s.view), es)
  {
    var server, v, last := servers[s.filterKey], s.view, es[|es| - 1];
    var w, alone := ViewAfter(servers, limit, s, es), ViewAfter(servers, limit, s, [last]);
    var d := DepthAfter(|v.stack|, es);
    assert WellServed(server, limit);
    StackAfter(servers, limit, s, es);
    StackAfter(servers, limit, s, [last]);
    OneAnswer(servers, limit, s, last);
    if DepthAfter(|v.stack|, [last]) == d {
      assert w == alone;
    } else if Correct(server, limit, w) {
      CorrectDepth(server, limit, v, w, d);
      Asked(server, limit, s, last);
      WrongPage(server, limit, w, CursorOf(RequestOf(s, limit, last)));
    }
  }

  lemma OneAnswer<T, C(!new)>(servers: map<string, Server<T, C>>, limit: nat, s: State<T, C>, e: Event)
    requires AllServed(servers, limit) && s.filterKey in servers && Correct(servers[s.filterKey], limit, s.view)
    requires Navigates(s, limit, e)
    ensures Correct(servers[s.filterKey], limit, ViewAfter(servers, limit, s, [e]))
    ensures DepthAfter(PageOf(s.view), [e]) == Turned(Depth(PageOf(s.view), 0), e)
  {
    assert [e][..0] == [];
    if e != ClickRefresh {
      AnswerIsCorrect(servers, limit, s, RequestOf(s, limit, e));
    }
  }

  // ---- Every order ---------------------------------------------------------------------------

  ghost predicate EveryOrderRight<T, C>(
      servers: map<string, Server<T, C>>, limit: nat, s: State<T, C>, es: seq<Event>)
    requires s.filterKey in servers
  {
    forall order: seq<Event> :: multiset(order) == multiset(es) && AllNavigate(s, limit, order) ==>
      Correct(servers[s.filterKey], limit, ViewAfter(servers, limit, s, order))
  }

  predicate IsClick(n: nat, e: Event) {
    e == ClickNext || (e == ClickPrevious && n > 1) || e == ClickRefresh
  }

  lemma DepthSnoc(n: nat, es: seq<Event>, e: Event)
    ensures DepthAfter(n, es + [e]) == Turned(DepthAfter(n, es), e)
  {
    assert (es + [e])[..|es|] == es;
  }

  // Of two orders that differ in the last two answers at most one is right.
  lemma SwapLastTwo(n: nat, es: seq<Event>, x: Event, y: Event)
    requires n > 0 && IsClick(n, x) && IsClick(n, y) && x != y
    ensures !RightDepth(n, es + [x] + [y]) || !RightDepth(n, es + [y] + [x])
  {
    DepthSnoc(n, es, x);
    DepthSnoc(n, es, y);
    DepthSnoc(n, es + [x], y);
    DepthSnoc(n, es + [y], x);
    DepthSnoc(n, [], x);
    DepthSnoc(n, [], y);
    assert [] + [x] == [x] && [] + [y] == [y];
  }

  lemma {:induction false} DepthOfSame(n: nat, es: seq<Event>, e: Event)
    requires forall i :: 0 <= i < |es| ==> es[i] == e
    ensures e == ClickNext ==> DepthAfter(n, es) == Depth(n, |es|)
    ensures e == ClickPrevious ==> DepthAfter(n, es) == Depth(if n >= |es| then n - |es| else 0, 0)
    ensures e == ClickRefresh ==> DepthAfter(n, es) == Depth(n, 0)
  {
    if es != [] { DepthOfSame(n, es[..|es| - 1], e); }
  }

  // The first and the j-th click can be moved to the end, in either order.
  lemma MovedLast(es: seq<Event>, j: nat) returns (rest: seq<Event>)
    requires 0 < j < |es|
    ensures multiset(rest + [es[0]] + [es[j]]) == multiset(es)
    ensures multiset(rest + [es[j]] + [es[0]]) == multiset(es)
  {
    rest := es[1..j] + es[j + 1..];
    assert es == [es[0]] + es[1..j] + [es[j]] + es[j + 1..];
  }

  lemma WrongOrder(n: nat, es: seq<Event>) returns (order: seq<Event>)
    requires n > 0 && |es| > 1 && (forall e :: e in es ==> IsClick(n, e))
    requires exists e :: e in es && e != ClickRefresh
    ensures multiset(order) == multiset(es) && order != [] && !RightDepth(n, order)
  {
    if j :| 0 < j < |es| && es[j] != es[0] {
      var rest := MovedLast(es, j);
      SwapLastTwo(n, rest, es[0], es[j]);
      order := if RightDepth(n, rest + [es[0]] + [es[j]]) then rest + [es[j]] + [es[0]] else rest + [es[0]] + [es[j]];
    } else {
      order := es;
      assert forall i :: 0 <= i < |es| ==> es[i] == es[0];
      DepthOfSame(n, es, es[0]);
      DepthOfSame(n, [es[|es| - 1]], es[0]);
    }
  }

  /** All orders of the answers leave the view right exactly when there is at most one request, or all are refreshes. */
  lemma EveryOrderRightIff<T, C(!new)>(
      servers: map<string, Server<T, C>>, limit: nat, s: State<T, C>, es: seq<Event>)
    requires AllServed(servers, limit) && s.filterKey in servers && Correct(servers[s.filterKey], limit, s.view)
    requires AllNavigate(s, limit, es)
    ensures EveryOrderRight(servers, limit, s, es) <==> |es| <= 1 || forall e :: e in es ==> e == ClickRefresh
  {
    var n := PageOf(s.view);
    if |es| <= 1 || forall e :: e in es ==> e == ClickRefresh {
      forall order: seq<Event> | multiset(order) == multiset(es) && AllNavigate(s, limit, order)
        ensures Correct(servers[s.filterKey], limit, ViewAfter(servers, limit, s, order))
      {
        HarmlessOrder(servers, limit, s, es, order);
      }
    } else {
      var order := WrongOrder(n, es);
      assert forall e :: e in order ==> e in multiset(es);
      AnswersIff(servers, limit, s, order);
    }
  }

  lemma HarmlessOrder<T, C(!new)>(
      servers: map<string, Server<T, C>>, limit: nat, s: State<T, C>, es: seq<Event>, order: seq<Event>)
    requires AllServed(servers, limit) && s.filterKey in servers && Correct(servers[s.filterKey], limit, s.view)
    requires multiset(order) == multiset(es) && AllNavigate(s, limit, order)
    requires |es| <= 1 || forall e :: e in es ==> e == ClickRefresh
    ensures Correct(servers[s.filterKey], limit, ViewAfter(servers, limit, s, order))
  {
    assert |order| == |multiset(order)| == |es|;
    if |order| == 1 {
      assert order == [order[0]];
      OneAnswer(servers, limit, s, order[0]);
    } else if order != [] {
      forall i | 0 <= i < |order| ensures order[i] == ClickRefresh {
        assert order[i] in multiset(order);
        assert order[i] in es;
      }
      DepthOfSame(PageOf(s.view), order, ClickRefresh);
      DepthOfSame(PageOf(s.view), [order[|order| - 1]], ClickRefresh);
      AnswersIff(servers, limit, s, order);
    }
  }

  // ---- Whole runs ------------------------------------------------------------------------------

  // The clicks, in the order in which their requests are answered.
  function Clicks(es: seq<Event>, order: seq<nat>): seq<Event>
    requires forall k :: 0 <= k < |order| ==> order[k] < |es|
  {
    seq(|order|, k requires 0 <= k < |order| => es[order[k]])
  }

  function Answers(first: nat, order: seq<nat>): seq<Event> {
    seq(|order|, k requires 0 <= k < |order| => Succeed(first + order[k]))
  }

  ghost predicate Distinct(order: seq<nat>, n: nat) {
    && (forall k :: 0 <= k < |order| ==> order[k] < n)
    && (forall i, j :: 0 <= i < j < |order| ==> order[i] != order[j])
  }

  // An order in which n requests can be answered.
  ghost predicate IsOrder(order: seq<nat>, n: nat) {
    Distinct(order, n) && forall i: nat :: i < n ==> i in order
  }

  // The id of the request of the i-th click.
  function IdOf<T, C>(s: State<T, C>, i: nat): nat {
    s.issued + i
  }

  // The requests of the clicks are outstanding beside what was cancelled before.
  ghost predicate Outstanding<T, C>(s: State<T, C>, limit: nat, es: seq<Event>, t: State<T, C>)
    requires AllNavigate(s, limit, es)
  {
    && t.view == s.view && t.filterKey == s.filterKey && t.issued == s.issued + |es|
    && (forall i :: 0 <= i < |es| ==>
          IdOf(s, i) in t.requests && t.requests[IdOf(s, i)] == RequestOf(s, limit, es[i]))
    && (forall id :: id in t.requests ==> id < t.issued)
    && (forall id :: id in t.requests ==> Cancelled(t.requests[id]) || exists i :: 0 <= i < |es| && id == IdOf(s, i))
  }

  lemma {:induction false} AllSent<T, C>(
      servers: map<string, Server<T, C>>, limit: nat, s: State<T, C>, es: seq<Event>)
    requires Rested(s) && AllNavigate(s, limit, es)
    ensures Outstanding(s, limit, es, Run(servers, s, es))
  {
    if es != [] {
      var before, e := es[..|es| - 1], es[|es| - 1];
      AllSent(servers, limit, s, before);
      OneSent(servers, limit, s, before, e, Run(servers, s, before));
      assert before + [e] == es;
    }
  }

  lemma OneSent<T, C>(
      servers: map<string, Server<T, C>>, limit: nat, s: State<T, C>, es: seq<Event>, e: Event, t: State<T, C>)
    requires AllNavigate(s, limit, es) && Navigates(s, limit, e) && Outstanding(s, limit, es, t)
    ensures AllNavigate(s, limit, es + [e]) && Outstanding(s, limit, es + [e], Step(servers, t, e))
  {
    assert Step(servers, t, e) == Send(t, RequestOf(s, limit, e));
    assert t.issued == IdOf(s, |es|);
  }

  // Some of the requests have been answered, in this order.
  ghost predicate AnsweredSo<T, C>(
      servers: map<string, Server<T, C>>, limit: nat, s: State<T, C>, es: seq<Event>, order: seq<nat>,
      sent: State<T, C>, t: State<T, C>)
    requires AllNavigate(s, limit, es) && forall k :: 0 <= k < |order| ==> order[k] < |es|
  {
    && t.view == ViewAfter(servers, limit, s, Clicks(es, order)) && t.filterKey == s.filterKey
    && (order != [] ==> !t.loading)
    && (forall id :: id in t.requests ==> id in sent.requests && t.requests[id] == sent.requests[id])
    && (forall i :: 0 <= i < |es| ==> (IdOf(s, i) in t.requests <==> i !in order))
  }

  lemma ClicksSnoc(es: seq<Event>, order: seq<nat>)
    requires order != [] && forall k :: 0 <= k < |order| ==> order[k] < |es|
    ensures Clicks(es, order) == Clicks(es, order[..|order| - 1]) + [es[order[|order| - 1]]]
  {
  }

  lemma OneAnswered<T, C>(
      servers: map<string, Server<T, C>>, limit: nat, s: State<T, C>, es: seq<Event>, order: seq<nat>,
      sent: State<T, C>, t: State<T, C>, t': State<T, C>)
    requires AllNavigate(s, limit, es) && Outstanding(s, limit, es, sent)
    requires order != [] && Distinct(order, |es|)
    requires AnsweredSo(servers, limit, s, es, order[..|order| - 1], sent, t)
    requires var k := order[|order| - 1]; var r := RequestOf(s, limit, es[k]);
             t' == t.(view := Written(t.view, r, Answer(servers, r)), loading := false,
                      requests := t.requests - {IdOf(s, k)})
    ensures AnsweredSo(servers, limit, s, es, order, sent, t')
  {
    var k := order[|order| - 1];
    ClicksSnoc(es, order);
    forall i | 0 <= i < |es| ensures i in order <==> i == k || i in order[..|order| - 1] {}
  }

  lemma NoneAnswered<T, C>(
      servers: map<string, Server<T, C>>, limit: nat, s: State<T, C>, es: seq<Event>, sent: State<T, C>)
    requires AllNavigate(s, limit, es) && Outstanding(s, limit, es, sent)
    ensures AnsweredSo(servers, limit, s, es, [], sent, sent) && Run(servers, sent, Answers(s.issued, [])) == sent
  {
  }

  lemma {:induction false} AllAnswered<T, C>(
      servers: map<string, Server<T, C>>, limit: nat, s: State<T, C>, es: seq<Event>, order: seq<nat>,
      sent: State<T, C>) returns (t: State<T, C>)
    requires AllNavigate(s, limit, es) && Outstanding(s, limit, es, sent)
    requires Distinct(order, |es|)
    ensures AnsweredSo(servers, limit, s, es, order, sent, t)
    ensures t == Run(servers, sent, Answers(s.issued, order))
  {
    if order == [] {
      NoneAnswered(servers, limit, s, es, sent);
      t := sent;
    } else {
      t := AllAnswered(servers, limit, s, es, order[..|order| - 1], sent);
      t := NextAnswered(servers, limit, s, es, order, sent, t);
    }
  }

  lemma NextAnswered<T, C>(
      servers: map<string, Server<T, C>>, limit: nat, s: State<T, C>, es: seq<Event>, order: seq<nat>,
      sent: State<T, C>, u: State<T, C>) returns (t: State<T, C>)
    requires AllNavigate(s, limit, es) && Outstanding(s, limit, es, sent)
    requires order != [] && Distinct(order, |es|)
    requires AnsweredSo(servers, limit, s, es, order[..|order| - 1], sent, u)
    requires u == Run(servers, sent, Answers(s.issued, order[..|order| - 1]))
    ensures AnsweredSo(servers, limit, s, es, order, sent, t)
    ensures t == Run(servers, sent, Answers(s.issued, order))
  {
    var k := order[|order| - 1];
    assert k !in order[..|order| - 1] && IdOf(s, k) in u.requests;
    t := LastAnswered(servers, sent, s.issued, order, u, RequestOf(s, limit, es[k]));
    OneAnswered(servers, limit, s, es, order, sent, u, t);
  }

  lemma Taken<T, C>(
      servers: map<string, Server<T, C>>, u: State<T, C>, id: nat, r: Request<C>, t: State<T, C>)
    requires id in u.requests && u.requests[id] == r && !r.Filter? && t == Step(servers, u, Succeed(id))
    ensures t == u.(view := Written(u.view, r, Answer(servers, r)), loading := false, requests := u.requests - {id})
  {
  }

  lemma LastAnswered<T, C>(
      servers: map<string, Server<T, C>>, sent: State<T, C>, first: nat, order: seq<nat>, u: State<T, C>, r: Request<C>)
      returns (t: State<T, C>)
    requires order != [] && u == Run(servers, sent, Answers(first, order[..|order| - 1])) && !r.Filter?
    requires var id := first + order[|order| - 1]; id in u.requests && u.requests[id] == r
    ensures t == u.(view := Written(u.view, r, Answer(servers, r)), loading := false,
                    requests := u.requests - {first + order[|order| - 1]})
    ensures t == Run(servers, sent, Answers(first, order))
  {
    var answers, id := Answers(first, order), first + order[|order| - 1];
    assert answers[..|answers| - 1] == Answers(first, order[..|order| - 1]);
    t := Step(servers, u, Succeed(id));
    Taken(servers, u, id, r, t);
  }

  /**
   * Any number of page requests sent at rest, and all answered in any order: the
   * screen comes to rest, on the right page exactly when the stack ends as deep as
   * the request answered last would alone leave it.
   */
  lemma ManyNavigationsIff<T, C(!new)>(
      servers: map<string, Server<T, C>>, limit: nat, s: State<T, C>, es: seq<Event>, order: seq<nat>)
    requires AllServed(servers, limit) && Good(servers, limit, s) && NoneLive(s)
    requires es != [] && AllNavigate(s, limit, es) && IsOrder(order, |es|)
    ensures order != []
    ensures var t := Run(servers, Run(servers, s, es), Answers(s.issued, order));
            && !t.loading && NoneLive(t) && t.filterKey == s.filterKey
            && (Correct(servers[s.filterKey], limit, t.view) <==> RightDepth(PageOf(s.view), Clicks(es, order)))
  {
    OnlyRefreshesAtPage(servers, limit, s);
    assert 0 in order;
    RanSo(servers, limit, s, es, order);
    ClicksNavigate(s, limit, es, order);
    AnswersIff(servers, limit, s, Clicks(es, order));
  }

  lemma ClicksNavigate<T, C>(s: State<T, C>, limit: nat, es: seq<Event>, order: seq<nat>)
    requires AllNavigate(s, limit, es) && forall k :: 0 <= k < |order| ==> order[k] < |es|
    ensures AllNavigate(s, limit, Clicks(es, order))
  {
  }

  lemma RanSo<T, C>(
      servers: map<string, Server<T, C>>, limit: nat, s: State<T, C>, es: seq<Event>, order: seq<nat>)
    requires Rested(s) && es != [] && AllNavigate(s, limit, es) && IsOrder(order, |es|) && order != []
    ensures AllNavigate(s, limit, Clicks(es, order))
    ensures var t := Run(servers, Run(servers, s, es), Answers(s.issued, order));
            && t.view == ViewAfter(servers, limit, s, Clicks(es, order))
            && !t.loading && NoneLive(t) && t.filterKey == s.filterKey
  {
    var sent := Run(servers, s, es);
    AllSent(servers, limit, s, es);
    var t := AllAnswered(servers, limit, s, es, order, sent);
    AllCancelled(servers, limit, s, es, order, sent, t);
  }

  lemma AllCancelled<T, C>(
      servers: map<string, Server<T, C>>, limit: nat, s: State<T, C>, es: seq<Event>, order: seq<nat>,
      sent: State<T, C>, t: State<T, C>)
    requires AllNavigate(s, limit, es) && Outstanding(s, limit, es, sent) && IsOrder(order, |es|)
    requires AnsweredSo(servers, limit, s, es, order, sent, t)
    ensures NoneLive(t)
  {
  }
}

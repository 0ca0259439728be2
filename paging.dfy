/**
 * The page-by-page listing loop every "list" handler runs:
 *
 *   currentPage = 0, totalPages = 1
 *   while currentPage < totalPages:
 *     GET <endpoint>?[...&]page=<currentPage>&size=50
 *     take the items under `_embedded[key]` (keeping only one `_type`, or all)
 *     if the body carries `page`: totalPages = page.totalPages; currentPage++
 *     else stop
 *
 * The handlers differ only in the key they read, the `_type` they keep,
 * whether a page without the key stops the loop and whether a `null` body is
 * an error (a property read on null throws) or just ends the loop. `Policy`
 * holds those choices; `Run` is the loop's meaning, `FetchPages` the loop.
 */
module Paging {
  import opened Wrappers
  import opened JsValues
  import opened SquashStore

  /** An element of a listing page: its `_type`, `id` and `name`. */
  datatype Item = Item(kind: string, id: int, name: string)

  datatype PageInfo = PageInfo(totalPages: int)

  /** The JSON body of a listing page; `NullBody` is a literal `null`. */
  datatype PageBody =
    | NullBody
    | PageBody(embedded: Option<map<string, seq<Item>>>, page: Option<PageInfo>)

  datatype Filter = KeepAll | KeepKind(kind: string)

  /**
   * key: the field of `_embedded` that holds the items;
   * breakOnMissing: a page without that field ends the loop;
   * nullIsError: a `null` body makes the handler throw instead of ending the loop.
   */
  datatype Policy = Policy(key: string, filter: Filter, breakOnMissing: bool, nullIsError: bool)

  /** What one run of the loop did: how many pages it requested and what it gathered (None: it threw). */
  datatype PagingRun = PagingRun(requests: nat, items: Option<seq<Item>>)

  predicate Matches(x: Item, f: Filter) {
    f.KeepAll? || x.kind == f.kind
  }

  /** `items.filter(item => item._type === kind)` (or every item). */
  function Keep(items: seq<Item>, f: Filter): (r: seq<Item>)
    ensures |r| <= |items|
    ensures forall x :: x in r <==> x in items && Matches(x, f)
    ensures f.KeepAll? ==> r == items
  {
    if items == [] then []
    else (if Matches(items[0], f) then [items[0]] else []) + Keep(items[1..], f)
  }

  /** Each matching item is kept as many times as it occurs, any other item never. */
  lemma {:induction false} KeepCounts(items: seq<Item>, f: Filter, x: Item)
    ensures multiset(Keep(items, f))[x] == if Matches(x, f) then multiset(items)[x] else 0
    decreases |items|
  {
    if items != [] {
      KeepCounts(items[1..], f, x);
      var head := if Matches(items[0], f) then [items[0]] else [];
      assert multiset(Keep(items, f)) == multiset(head) + multiset(Keep(items[1..], f));
      assert multiset(items) == multiset([items[0]]) + multiset(items[1..]) by {
        assert items == [items[0]] + items[1..];
      }
    }
  }

  /** A single item is kept exactly when it matches. */
  lemma KeepOne(x: Item, f: Filter)
    ensures Keep([x], f) == if Matches(x, f) then [x] else []
  {
    assert [x][1..] == [];
  }

  /**
   * Filtering a concatenation filters each part and keeps them in order;
   * with `KeepOne` this fixes the order of the kept items.
   */
  lemma {:induction false} KeepAppend(a: seq<Item>, b: seq<Item>, f: Filter)
    ensures Keep(a + b, f) == Keep(a, f) + Keep(b, f)
    decreases |a|
  {
    if a == [] {
      assert a + b == b;
    } else {
      var ab := a + b;
      assert ab[0] == a[0];
      assert ab[1..] == a[1..] + b;
      KeepAppend(a[1..], b, f);
    }
  }

  /** `data._embedded?.[key]`: the items listed under the key, if any. */
  function Listed(body: PageBody, key: string): Option<seq<Item>> {
    if body.PageBody? && body.embedded.Some? && key in body.embedded.value
    then Some(body.embedded.value[key]) else None
  }

  /** The items a page contributes: the kept part of what is listed under the key. */
  function PageItems(body: PageBody, policy: Policy): seq<Item> {
    Keep(Listed(body, policy.key).GetOr([]), policy.filter)
  }

  /**
   * `${base}page=${page}&size=50`, where `base` is the endpoint with its query
   * opened: `requirement-folders/7/content?` or `projects?type=STANDARD&`.
   */
  function PageEndpoint(base: string, page: nat): string {
    base + "page=" + NatToString(page) + "&size=50"
  }

  /** The `page.totalPages` the server reports for a page, or 0 when it reports none. */
  function TotalAt(server: string -> PageBody, base: string, page: nat): int {
    var b := server(PageEndpoint(base, page));
    if b.PageBody? && b.page.Some? then b.page.value.totalPages else 0
  }

  /** The server never reports more than `bound` pages: without such a bound the loop need not end. */
  ghost predicate PagesBounded(server: string -> PageBody, base: string, bound: nat) {
    1 <= bound && forall p: nat :: TotalAt(server, base, p) <= bound
  }

  /** The GET requests for pages 0 .. k-1, in that order. */
  function PageGets<P>(base: string, k: nat): (r: seq<Request<P>>)
    ensures |r| == k
    ensures forall i :: 0 <= i < k ==> r[i] == Request(GET, PageEndpoint(base, i), None)
  {
    seq(k, i requires 0 <= i < k => Request(GET, PageEndpoint(base, i), None))
  }

  /** One page's contribution followed by the rest of the run. */
  function Then(kept: seq<Item>, rest: PagingRun): PagingRun {
    PagingRun(1 + rest.requests, if rest.items.Some? then Some(kept + rest.items.value) else None)
  }

  /** What the loop does with one successfully fetched page. */
  datatype Step = Throw | Stop(kept: seq<Item>) | Next(kept: seq<Item>, total: int)

  /**
   * One iteration's decision: a null body throws or ends the loop; a missing
   * key ends it when the policy says so; otherwise the page's items are kept
   * and the loop goes on iff the body carries `page`, whose `totalPages`
   * becomes the new bound.
   */
  function StepOf(body: PageBody, policy: Policy): (s: Step)
    ensures s.Next? <==> body.PageBody? && body.page.Some? && !(policy.breakOnMissing && Listed(body, policy.key).None?)
    ensures s.Next? ==> s.total == body.page.value.totalPages
    ensures s.Throw? <==> body.NullBody? && policy.nullIsError
    ensures !s.Throw? ==> s.kept == PageItems(body, policy)
  {
    if body.NullBody? then (if policy.nullIsError then Throw else Stop([]))
    else if policy.breakOnMissing && Listed(body, policy.key).None? then Stop([])
    else if body.page.None? then Stop(PageItems(body, policy))
    else Next(PageItems(body, policy), body.page.value.totalPages)
  }

  /**
   * The loop from the state (currentPage = page, totalPages = total), with
   * the next request landing at log position pos.
   */
  function Run(server: string -> PageBody, base: string, policy: Policy, failing: set<nat>,
               pos: nat, page: nat, total: int, bound: nat): PagingRun
    requires PagesBounded(server, base, bound) && page <= bound && total <= bound
    decreases bound - page
  {
    if total <= page then PagingRun(0, Some([]))
    else if pos in failing then PagingRun(1, None)
    else
      match StepOf(server(PageEndpoint(base, page)), policy)
      case Throw => PagingRun(1, None)
      case Stop(kept) => PagingRun(1, Some(kept))
      case Next(kept, t) =>
        assert t == TotalAt(server, base, page);
        Then(kept, Run(server, base, policy, failing, pos + 1, page + 1, t, bound))
  }

  /** Independent reference: the contributions of pages from .. from+k-1, concatenated in page order. */
  function Gathered(server: string -> PageBody, base: string, policy: Policy, from: nat, k: nat): seq<Item>
    decreases k
  {
    if k == 0 then []
    else PageItems(server(PageEndpoint(base, from)), policy) + Gathered(server, base, policy, from + 1, k - 1)
  }

  /** A page lets the loop go on to the next one: a body, with `page`, and (if required) with the key. */
  predicate Continues(body: PageBody, policy: Policy) {
    body.PageBody? && body.page.Some? && !(policy.breakOnMissing && Listed(body, policy.key).None?)
  }

  /** One unfolding of `Run` at a page that is requested and does not fail. */
  lemma RunFirstPage(server: string -> PageBody, base: string, policy: Policy, failing: set<nat>,
                     pos: nat, page: nat, total: int, bound: nat)
    requires PagesBounded(server, base, bound) && page <= bound && total <= bound
    requires page < total && pos !in failing
    ensures var run := Run(server, base, policy, failing, pos, page, total, bound);
            match StepOf(server(PageEndpoint(base, page)), policy)
            case Throw => run == PagingRun(1, None)
            case Stop(kept) => run == PagingRun(1, Some(kept))
            case Next(kept, t) =>
              t <= bound && run == Then(kept, Run(server, base, policy, failing, pos + 1, page + 1, t, bound))
  {
    assert TotalAt(server, base, page) <= bound;
  }

  /**
   * How the loop's state accounts for the whole run `full`: the pages
   * requested so far plus what the rest of the run requests, the items
   * gathered so far plus what the rest gathers.
   */
  ghost predicate Accounts(server: string -> PageBody, base: string, policy: Policy, failing: set<nat>,
                           pos: nat, page: nat, total: int, bound: nat, full: PagingRun, all: seq<Item>)
    requires PagesBounded(server, base, bound)
  {
    page <= bound && total <= bound &&
    var rest := Run(server, base, policy, failing, pos + page, page, total, bound);
    full.requests == page + rest.requests &&
    full.items == if rest.items.Some? then Some(all + rest.items.value) else None
  }

  /** Before the first request the run still lies entirely ahead. */
  lemma AccountsStart(server: string -> PageBody, base: string, policy: Policy, failing: set<nat>, pos: nat, bound: nat)
    requires PagesBounded(server, base, bound)
    ensures Accounts(server, base, policy, failing, pos, 0, 1, bound, Run(server, base, policy, failing, pos, 0, 1, bound), [])
  {
    var full := Run(server, base, policy, failing, pos, 0, 1, bound);
    if full.items.Some? {
      assert [] + full.items.value == full.items.value;
    }
  }

  /** What one iteration does to the account, given what fetching page `page` yielded. */
  lemma AccountsAdvance(server: string -> PageBody, base: string, policy: Policy, failing: set<nat>,
                        pos: nat, page: nat, total: int, bound: nat, full: PagingRun, all: seq<Item>, step: Option<Step>)
    requires PagesBounded(server, base, bound)
    requires Accounts(server, base, policy, failing, pos, page, total, bound, full, all) && page < total
    requires step == if pos + page in failing then None else Some(StepOf(server(PageEndpoint(base, page)), policy))
    ensures step.None? || step.value.Throw? ==> full == PagingRun(page + 1, None)
    ensures step.Some? && step.value.Stop? ==> full == PagingRun(page + 1, Some(all + step.value.kept))
    ensures step.Some? && step.value.Next? ==>
              Accounts(server, base, policy, failing, pos, page + 1, step.value.total, bound, full, all + step.value.kept)
  {
    if step.Some? {
      RunFirstPage(server, base, policy, failing, pos + page, page, total, bound);
      if step.value.Next? {
        var kept := step.value.kept;
        var next := Run(server, base, policy, failing, pos + page + 1, page + 1, step.value.total, bound);
        if next.items.Some? {
          assert all + (kept + next.items.value) == (all + kept) + next.items.value;
        }
      }
    }
  }

  /** Once the loop condition fails, nothing is left to request. */
  lemma AccountsDone(server: string -> PageBody, base: string, policy: Policy, failing: set<nat>,
                     pos: nat, page: nat, total: int, bound: nat, full: PagingRun, all: seq<Item>)
    requires PagesBounded(server, base, bound)
    requires Accounts(server, base, policy, failing, pos, page, total, bound, full, all) && total <= page
    ensures full == PagingRun(page, Some(all))
  {
    assert all + [] == all;
  }

  lemma PageGetsSnoc<P>(base: string, k: nat)
    ensures PageGets<P>(base, k) + [Request(GET, PageEndpoint(base, k), None)] == PageGets(base, k + 1)
  {
  }

  /**
   * One iteration's request and checks, in the order the handlers make them:
   * GET the page, then test the body, the key and `page`. None: the request
   * failed (the handler throws).
   */
  method FetchPage<P>(store: Store<P>, base: string, page: nat, policy: Policy, server: string -> PageBody)
    returns (s: Option<Step>)
    modifies store`log
    ensures store.log == old(store.log) + [Request(GET, PageEndpoint(base, page), None)]
    ensures s == if |old(store.log)| in store.failing then None else Some(StepOf(server(PageEndpoint(base, page)), policy))
  {
    var data := store.Get(PageEndpoint(base, page), server);
    if data.None? {
      return None;
    }
    var body := data.value;
    if body.NullBody? {
      return Some(if policy.nullIsError then Throw else Stop([]));
    }
    var listed := Listed(body, policy.key);
    if policy.breakOnMissing && listed.None? {
      return Some(Stop([]));
    }
    var kept := Keep(listed.GetOr([]), policy.filter);
    if body.page.None? {
      return Some(Stop(kept));
    }
    return Some(Next(kept, body.page.value.totalPages));
  }

  /**
   * One iteration of the loop, from where the account stands: the page's
   * GET is logged and what it yields moves the account one page on.
   */
  method FetchNext<P>(store: Store<P>, base: string, policy: Policy, server: string -> PageBody, ghost bound: nat,
                      ghost pos: nat, page: nat, ghost total: int, ghost full: PagingRun, ghost all: seq<Item>)
    returns (step: Option<Step>)
    requires PagesBounded(server, base, bound)
    requires |store.log| == pos + page && page < total
    requires Accounts(server, base, policy, store.failing, pos, page, total, bound, full, all)
    modifies store`log
    ensures store.log == old(store.log) + [Request(GET, PageEndpoint(base, page), None)]
    ensures step.None? || step.value.Throw? ==> full == PagingRun(page + 1, None)
    ensures step.Some? && step.value.Stop? ==> full == PagingRun(page + 1, Some(all + step.value.kept))
    ensures step.Some? && step.value.Next? ==>
              Accounts(server, base, policy, store.failing, pos, page + 1, step.value.total, bound, full, all + step.value.kept)
  {
    step := FetchPage(store, base, page, policy, server);
    AccountsAdvance(server, base, policy, store.failing, pos, page, total, bound, full, all, step);
  }

  /**
   * The loop itself. The pages requested are 0, 1, 2, ... in order, one per
   * iteration, and the result is what `Run` says.
   */
  method FetchPages<P>(store: Store<P>, base: string, policy: Policy, server: string -> PageBody, ghost bound: nat)
    returns (r: Option<seq<Item>>)
    requires PagesBounded(server, base, bound)
    modifies store`log
    ensures var run := Run(server, base, policy, store.failing, |old(store.log)|, 0, 1, bound);
            store.log == old(store.log) + PageGets(base, run.requests) && r == run.items
  {
    ghost var pos := |store.log|;
    ghost var full := Run(server, base, policy, store.failing, pos, 0, 1, bound);
    AccountsStart(server, base, policy, store.failing, pos, bound);
    var all: seq<Item> := [];
    var currentPage: nat := 0;
    var totalPages: int := 1;
    ghost var stopped := false;
    while currentPage < totalPages
      invariant !stopped
      invariant store.log == old(store.log) + PageGets(base, currentPage)
      invariant Accounts(server, base, policy, store.failing, pos, currentPage, totalPages, bound, full, all)
      decreases bound - currentPage
    {
      var step := FetchNext(store, base, policy, server, bound, pos, currentPage, totalPages, full, all);
      PageGetsSnoc<P>(base, currentPage);
      if step.None? || step.value.Throw? {
        return None;
      }
      all := all + step.value.kept;
      currentPage := currentPage + 1;
      if step.value.Stop? {
        stopped := true;
        break;
      }
      totalPages := step.value.total;
    }
    if !stopped {
      AccountsDone(server, base, policy, store.failing, pos, currentPage, totalPages, bound, full, all);
    }
    r := Some(all);
  }

  /** Every gathered item has the kind the policy keeps. */
  lemma {:induction false} RunKeepsOnlyMatching(server: string -> PageBody, base: string, policy: Policy,
                                                 failing: set<nat>, pos: nat, page: nat, total: int, bound: nat)
    requires PagesBounded(server, base, bound) && page <= bound && total <= bound
    ensures var run := Run(server, base, policy, failing, pos, page, total, bound);
            run.items.Some? ==> forall x :: x in run.items.value ==> Matches(x, policy.filter)
    decreases bound - page
  {
    if total > page && pos !in failing {
      var step := StepOf(server(PageEndpoint(base, page)), policy);
      RunFirstPage(server, base, policy, failing, pos, page, total, bound);
      if step.Next? {
        RunKeepsOnlyMatching(server, base, policy, failing, pos + 1, page + 1, step.total, bound);
      }
    }
  }

  /**
   * What a successful run gathers is exactly the kept contents of the pages
   * it requested, concatenated in page order.
   */
  lemma {:induction false} RunGathersPagesInOrder(server: string -> PageBody, base: string, policy: Policy,
                                                   failing: set<nat>, pos: nat, page: nat, total: int, bound: nat)
    requires PagesBounded(server, base, bound) && page <= bound && total <= bound
    ensures var run := Run(server, base, policy, failing, pos, page, total, bound);
            run.items.Some? ==> run.items.value == Gathered(server, base, policy, page, run.requests)
    decreases bound - page
  {
    if total > page && pos !in failing {
      var body := server(PageEndpoint(base, page));
      var step := StepOf(body, policy);
      RunFirstPage(server, base, policy, failing, pos, page, total, bound);
      if step.Next? {
        RunGathersPagesInOrder(server, base, policy, failing, pos + 1, page + 1, step.total, bound);
      } else if step.Stop? {
        assert Gathered(server, base, policy, page + 1, 0) == [];
        assert step.kept + [] == step.kept;
        if body.NullBody? || (policy.breakOnMissing && Listed(body, policy.key).None?) {
          assert PageItems(body, policy) == [];
        }
      }
    }
  }

  /**
   * The loop goes on past a page exactly because that page kept it going:
   * every requested page but the last succeeded, was a body with `page`
   * (and with the key when the policy needs it) and reported more pages than
   * the ones requested so far. A failed request can only be the last one.
   */
  lemma {:induction false} RunContinuesOnlyWhenToldTo(server: string -> PageBody, base: string, policy: Policy,
                                                       failing: set<nat>, pos: nat, page: nat, total: int, bound: nat)
    requires PagesBounded(server, base, bound) && page <= bound && total <= bound
    ensures var run := Run(server, base, policy, failing, pos, page, total, bound);
            && (run.requests == 0 <==> total <= page)
            && AllOk(failing, pos, if run.requests == 0 then 0 else run.requests - 1)
            && forall i :: page <= i < page + run.requests - 1 ==>
                 Continues(server(PageEndpoint(base, i)), policy) && i + 1 < TotalAt(server, base, i)
    decreases bound - page
  {
    var run := Run(server, base, policy, failing, pos, page, total, bound);
    if total > page && pos !in failing {
      var body := server(PageEndpoint(base, page));
      RunFirstPage(server, base, policy, failing, pos, page, total, bound);
      if Continues(body, policy) {
        var t := TotalAt(server, base, page);
        RunContinuesOnlyWhenToldTo(server, base, policy, failing, pos + 1, page + 1, t, bound);
        var rest := Run(server, base, policy, failing, pos + 1, page + 1, t, bound);
        assert run.requests == 1 + rest.requests;
        if rest.requests == 0 {
          assert run.requests - 1 == 0;
        } else {
          assert page + 1 < t;
          forall i | pos <= i < pos + run.requests - 1
            ensures i !in failing
          {
            if i > pos {
              assert pos + 1 <= i < pos + 1 + rest.requests - 1;
            }
          }
          forall i | page <= i < page + run.requests - 1
            ensures Continues(server(PageEndpoint(base, i)), policy) && i + 1 < TotalAt(server, base, i)
          {
            if i > page {
              assert page + 1 <= i < page + 1 + rest.requests - 1;
            }
          }
        }
      }
    }
  }

  /**
   * The paging scenario: when the server reports the same `totalPages = T`
   * on every page, lists the key on each and no request fails, the loop asks
   * for exactly T pages and gathers all of them.
   */
  lemma {:induction false} FixedPageCount(server: string -> PageBody, base: string, policy: Policy,
                                          failing: set<nat>, pos: nat, page: nat, t: nat, bound: nat)
    requires PagesBounded(server, base, bound) && page <= t <= bound
    requires forall i :: page <= i < t ==>
               var b := server(PageEndpoint(base, i));
               b.PageBody? && b.page == Some(PageInfo(t)) && Listed(b, policy.key).Some?
    requires AllOk(failing, pos, t - page)
    ensures Run(server, base, policy, failing, pos, page, t, bound)
            == PagingRun(t - page, Some(Gathered(server, base, policy, page, t - page)))
    decreases t - page
  {
    if page < t {
      assert pos !in failing by {
        assert pos in failing ==> pos < pos + (t - page);
      }
      var b := server(PageEndpoint(base, page));
      assert b.PageBody? && b.page == Some(PageInfo(t)) && Listed(b, policy.key).Some?;
      assert StepOf(b, policy) == Next(PageItems(b, policy), t);
      RunFirstPage(server, base, policy, failing, pos, page, t, bound);
      FixedPageCount(server, base, policy, failing, pos + 1, page + 1, t, bound);
      var rest := Gathered(server, base, policy, page + 1, t - page - 1);
      assert Gathered(server, base, policy, page, t - page) == PageItems(b, policy) + rest;
    }
  }

  /** The detail endpoint of each gathered item, in the order the items were gathered. */
  function ItemEndpoints(items: seq<Item>, detail: int -> string): (r: seq<string>)
    ensures |r| == |items|
    ensures forall i :: 0 <= i < |items| ==> r[i] == detail(items[i].id)
  {
    seq(|items|, i requires 0 <= i < |items| => detail(items[i].id))
  }

  /** The detail endpoints a run leads to: one per gathered item, none when the loop threw. */
  function DetailTargets(run: PagingRun, detail: int -> string): seq<string> {
    if run.items.Some? then ItemEndpoints(run.items.value, detail) else []
  }

  /**
   * `items.map(item => shape(item, details(detail(item.id))))`: each item
   * shaped together with its detail body, in the items' order.
   */
  function ShapeEach<T, U>(items: seq<Item>, detail: int -> string, details: string -> T, shape: (Item, T) -> U)
    : (r: seq<U>)
    ensures |r| == |items|
    ensures forall i :: 0 <= i < |items| ==> r[i] == shape(items[i], details(detail(items[i].id)))
  {
    seq(|items|, i requires 0 <= i < |items| => shape(items[i], details(detail(items[i].id))))
  }

  /**
   * The outcome of a listing handler that started with the log `before` and
   * left it as `after`: the requests of the paging loop's run, then one
   * detail GET per gathered item; an answer exactly when the loop gathered
   * items and every detail GET succeeded, and then each item shaped with
   * its detail body, in the gathered order.
   */
  ghost predicate FetchedWithDetails<P, T, U>(before: seq<Request<P>>, after: seq<Request<P>>, failing: set<nat>,
                                              r: Option<seq<U>>, server: string -> PageBody, base: string,
                                              policy: Policy, detail: int -> string, details: string -> T,
                                              shape: (Item, T) -> U, bound: nat)
    requires PagesBounded(server, base, bound)
  {
    var run := Run(server, base, policy, failing, |before|, 0, 1, bound);
    var endpoints := DetailTargets(run, detail);
    && after == before + PageGets(base, run.requests) + Gets(endpoints)
    && (r.Some? <==> run.items.Some? && AllOk(failing, |before| + run.requests, |endpoints|))
    && (r.Some? ==> r.value == ShapeEach(run.items.value, detail, details, shape))
  }

  /**
   * A listing handler: the paging loop, then
   * `Promise.all(items.map(item => GET detail(item.id)))`, each answer put in
   * shape, together with the item it details, by `shape`. The detail GETs are only issued when the loop did not
   * throw; the handler fails when any request fails, and otherwise answers
   * with one shaped detail body per gathered item, in the gathered order.
   */
  method FetchWithDetails<P, T, U>(store: Store<P>, base: string, policy: Policy, server: string -> PageBody,
                                   detail: int -> string, details: string -> T, shape: (Item, T) -> U,
                                   ghost bound: nat)
    returns (r: Option<seq<U>>)
    requires PagesBounded(server, base, bound)
    modifies store`log
    ensures FetchedWithDetails(old(store.log), store.log, store.failing, r, server, base, policy, detail, details, shape, bound)
  {
    var items := FetchPages(store, base, policy, server, bound);
    if items.Some? {
      var got := store.GetAll(ItemEndpoints(items.value, detail), details);
      r := if got.Some? then Some(ShapeEach(items.value, detail, details, shape)) else None;
    } else {
      assert store.log == store.log + Gets<P>([]);
      r := None;
    }
  }

  /** Where a folder-content listing reads: the base of its page endpoints and the key of its items. */
  datatype Source = Source(base: string, key: string)

  /**
   * A folder's content when a (truthy) folder id is given, the root of the
   * project's library otherwise: `<folders>/<id>/content` under the key
   * `content`, or `projects/<project>/<library>/content` under `<keyPrefix>-content`.
   */
  function ContentSource(folders: string, library: string, keyPrefix: string, projectId: int, folderId: Option<int>): Source {
    if TruthyId(folderId) then Source(folders + "/" + IntToString(folderId.value) + "/content?", "content")
    else Source("projects/" + IntToString(projectId) + ("/" + library + "/content?"), keyPrefix + "-content")
  }

  /** The endpoint and the key are chosen by the same test: items are read under `content` exactly when a folder is listed. */
  lemma ContentKeyFollowsSource(folders: string, library: string, keyPrefix: string, projectId: int, folderId: Option<int>)
    ensures ContentSource(folders, library, keyPrefix, projectId, folderId).key == "content" <==> TruthyId(folderId)
  {
    assert |keyPrefix + "-content"| > |"content"|;
  }

  /** Different folders are listed at different endpoints. */
  lemma ContentFoldersDistinct(folders: string, library: string, keyPrefix: string, projectId: int, a: int,
                               otherProject: int, b: int)
    requires a != 0 && b != 0 && a != b
    ensures ContentSource(folders, library, keyPrefix, projectId, Some(a)).base
            != ContentSource(folders, library, keyPrefix, otherProject, Some(b)).base
  {
    if folders + "/" + IntToString(a) + "/content?" == folders + "/" + IntToString(b) + "/content?" {
      FramedIntInjective(folders + "/", "/content?", a, b);
    }
  }

  /** Different projects have their library roots listed at different endpoints. */
  lemma ContentRootsDistinct(folders: string, library: string, keyPrefix: string, a: int, b: int)
    requires a != b
    ensures ContentSource(folders, library, keyPrefix, a, None).base
            != ContentSource(folders, library, keyPrefix, b, None).base
  {
    var q := "/" + library + "/content?";
    if "projects/" + IntToString(a) + q == "projects/" + IntToString(b) + q {
      FramedIntInjective("projects/", q, a, b);
    }
  }
}

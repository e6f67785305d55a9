/** The paginated image feed of the list screen: the page cursor, the list of
    products on display and the status wrapper of the latest fetch.

    The HTTP request is not performed here. An operation that fetches reports
    the page number it requests; the outcome of that request reaches the
    screen later as an event. Events are applied one after another to the
    current state. */
module Feed {
  import opened Platform

  /** `fetchMoreProducts` only requests pages strictly below this bound. */
  const MaxPageExclusive: int := 5

  /** The page the screen starts on, and the one a refresh requests. */
  const FirstPage: int := 1

  datatype Product = Product(id: string, author: string, width: int, height: int, url: string, downloadUrl: string)

  /** The lifecycle of the latest fetch. `Succcess` keeps the spelling of the
      source's status string, see StatusLabel. */
  datatype Status = Initial | Loading | Succcess | Fail

  /** The string the source stores for each status. */
  function StatusLabel(s: Status): string
  {
    match s
    case Initial => "INITIAL"
    case Loading => "LOADING"
    case Succcess => "SUCCCESS"
    case Fail => "FAIL"
  }

  /** The status wrapper `apiProducts`. */
  datatype ApiResponse = ApiResponse(data: seq<Product>, status: Status, errorMessage: string)

  /** How one list request ended: the page it delivered, or the string form of
      the error that was caught. */
  datatype FetchResult = Items(items: seq<Product>) | Error(message: string)

  /** The screen's state as a value. */
  datatype FeedState = FeedState(page: int, products: seq<Product>, api: ApiResponse)

  /** What reaches the screen: the end of the list is reached, the list is
      pulled to refresh, the "Get Products" button is pressed, or the request
      for page `pageNo` ends with `result`. */
  datatype Event =
    | EndReached
    | RefreshPulled
    | ButtonPressed
    | Resolved(pageNo: int, result: FetchResult)

  function InitialState(): FeedState
  {
    FeedState(FirstPage, [], ApiResponse([], Initial, ""))
  }

  predicate PageInRange(page: int)
  {
    FirstPage <= page < MaxPageExclusive
  }

  /** The page `fetchMoreProducts` requests from cursor `page`, if any. */
  function NextPage(page: int): Option<int>
  {
    if page + 1 < MaxPageExclusive then Some(page + 1) else None
  }

  /** The first step of every fetch: the wrapper goes to LOADING and nothing
      else changes. */
  function Started(s: FeedState): (r: FeedState)
    ensures StatusLabel(r.api.status) == "LOADING"
    ensures r.page == s.page && r.products == s.products
    ensures r.api.data == s.api.data && r.api.errorMessage == s.api.errorMessage
  {
    s.(api := s.api.(status := Loading))
  }

  /** A fetch of page `pageNo` delivered `items`: page 1 replaces the list,
      a later page is appended to it, and the wrapper's data always grows. */
  function Succeeded(s: FeedState, pageNo: int, items: seq<Product>): (r: FeedState)
    ensures StatusLabel(r.api.status) == "SUCCCESS" && r.api.errorMessage == ""
    ensures r.page == s.page
    ensures pageNo == 1 ==> r.products == items
    ensures pageNo != 1 ==> |r.products| == |s.products| + |items|
                            && r.products[..|s.products|] == s.products
                            && r.products[|s.products|..] == items
    ensures |r.api.data| == |s.api.data| + |items|
    ensures r.api.data[..|s.api.data|] == s.api.data && r.api.data[|s.api.data|..] == items
  {
    FeedState(s.page,
              if pageNo == 1 then items else s.products + items,
              ApiResponse(s.api.data + items, Succcess, ""))
  }

  /** A fetch failed with `message`: the wrapper is reset, the list and the
      cursor are kept. */
  function Failed(s: FeedState, message: string): (r: FeedState)
    ensures StatusLabel(r.api.status) == "FAIL"
    ensures r.api.data == [] && r.api.errorMessage == message
    ensures r.page == s.page && r.products == s.products
  {
    s.(api := ApiResponse([], Fail, message))
  }

  function AfterEndReached(s: FeedState): FeedState
  {
    match NextPage(s.page)
    case Some(p) => Started(s.(page := p))
    case None => s
  }

  /** The page for which event `e` issues a request, if any. */
  function Requested(s: FeedState, e: Event): Option<int>
  {
    match e
    case EndReached => NextPage(s.page)
    case RefreshPulled => Some(FirstPage)
    case ButtonPressed => if |s.products| > 0 then NextPage(s.page) else Some(FirstPage)
    case Resolved(_, _) => None
  }

  /** The state after event `e`. Only a response changes the list, and a
      response never moves the cursor. An event that issues a request sets the
      status to LOADING and keeps the wrapper's data; one that issues none
      (end of list at the cap) changes nothing. */
  function Apply(s: FeedState, e: Event): (r: FeedState)
    ensures PageInRange(s.page) ==> PageInRange(r.page)
    ensures e.Resolved? ==> r.page == s.page
    ensures !e.Resolved? ==> r.products == s.products
    ensures e == EndReached && Requested(s, e).Some? ==> r.page == Requested(s, e).value == s.page + 1
    ensures e == RefreshPulled ==> r.page == FirstPage
    ensures e == ButtonPressed && |s.products| == 0 ==> r.page == s.page
    ensures Requested(s, e).Some? ==> r.api.status == Loading && r.api.data == s.api.data
    ensures Requested(s, e).None? && !e.Resolved? ==> r == s
  {
    match e
    case EndReached => AfterEndReached(s)
    case RefreshPulled => Started(s).(page := FirstPage)
    case ButtonPressed => if |s.products| > 0 then AfterEndReached(s) else Started(s)
    case Resolved(p, Items(xs)) => Succeeded(s, p, xs)
    case Resolved(_, Error(m)) => Failed(s, m)
  }

  /** The state after the events `es`, in order. */
  function Run(s: FeedState, es: seq<Event>): FeedState
    decreases |es|
  {
    if es == [] then s else Run(Apply(s, es[0]), es[1..])
  }

  /** Whatever the events, the cursor stays within the pages that may be
      requested. */
  lemma {:induction false} RunKeepsPageInRange(s: FeedState, es: seq<Event>)
    requires PageInRange(s.page)
    ensures PageInRange(Run(s, es).page)
    decreases |es|
  {
    if es != [] {
      RunKeepsPageInRange(Apply(s, es[0]), es[1..]);
    }
  }

  lemma {:induction false} RunAppend(s: FeedState, a: seq<Event>, b: seq<Event>)
    ensures Run(s, a + b) == Run(Run(s, a), b)
    decreases |a|
  {
    if a == [] {
      assert a + b == b;
    } else {
      assert (a + b)[0] == a[0];
      assert (a + b)[1..] == a[1..] + b;
      RunAppend(Apply(s, a[0]), a[1..], b);
    }
  }

  /** All pages, in order, one after the other. */
  function Flatten(pages: seq<seq<Product>>): seq<Product>
  {
    if pages == [] then [] else Flatten(pages[..|pages| - 1]) + pages[|pages| - 1]
  }

  /** Loading `pages` one after another on a fresh screen: the button fetches
      the first page, and each further page is fetched when the end of the
      list is reached. */
  function SequentialLoad(pages: seq<seq<Product>>): seq<Event>
    requires |pages| >= 1
  {
    if |pages| == 1 then [ButtonPressed, Resolved(FirstPage, Items(pages[0]))]
    else SequentialLoad(pages[..|pages| - 1]) + [EndReached, Resolved(|pages|, Items(pages[|pages| - 1]))]
  }

  /** Loading pages 1..k with k < 5 on a fresh screen shows exactly the pages
      concatenated in arrival order (no de-duplication), leaves the cursor on
      page k with status SUCCCESS, and the next end-of-list requests page k+1
      only while that is below the cap. */
  lemma {:induction false} SequentialLoadConcatenates(pages: seq<seq<Product>>)
    requires 1 <= |pages| < MaxPageExclusive
    ensures Run(InitialState(), SequentialLoad(pages))
         == FeedState(|pages|, Flatten(pages), ApiResponse(Flatten(pages), Succcess, ""))
    ensures Requested(Run(InitialState(), SequentialLoad(pages)), EndReached)
         == if |pages| + 1 < MaxPageExclusive then Some(|pages| + 1) else None
  {
    var s0 := InitialState();
    if |pages| == 1 {
      assert pages[..0] == [];
      assert Flatten(pages) == Flatten([]) + pages[0] == pages[0];
      var es := SequentialLoad(pages);
      var s1 := Apply(s0, ButtonPressed);
      var s2 := Apply(s1, Resolved(FirstPage, Items(pages[0])));
      assert es[1..] == [Resolved(FirstPage, Items(pages[0]))];
      assert Run(s0, es) == Run(s1, es[1..]);
      assert Run(s1, es[1..]) == Run(s2, []) == s2;
      assert s2 == FeedState(1, pages[0], ApiResponse(pages[0], Succcess, ""));
    } else {
      var n := |pages|;
      var front := pages[..n - 1];
      var tail := [EndReached, Resolved(n, Items(pages[n - 1]))];
      SequentialLoadConcatenates(front);
      RunAppend(s0, SequentialLoad(front), tail);
      var mid := Run(s0, SequentialLoad(front));
      var s1 := Apply(mid, EndReached);
      var s2 := Apply(s1, Resolved(n, Items(pages[n - 1])));
      assert tail[1..] == [Resolved(n, Items(pages[n - 1]))];
      assert Run(mid, tail) == Run(s1, tail[1..]);
      assert Run(s1, tail[1..]) == Run(s2, []) == s2;
      assert Flatten(pages) == Flatten(front) + pages[n - 1];
    }
  }

  /** A refresh requests the first page; once that page arrives the list is
      exactly the page and the cursor is back on page 1, while the wrapper's
      data keeps growing (it is never reset by a refresh). */
  lemma RefreshThenSuccess(s: FeedState, xs: seq<Product>)
    ensures Requested(s, RefreshPulled) == Some(FirstPage)
    ensures Run(s, [RefreshPulled, Resolved(FirstPage, Items(xs))])
         == FeedState(FirstPage, xs, ApiResponse(s.api.data + xs, Succcess, ""))
  {
    var es := [RefreshPulled, Resolved(FirstPage, Items(xs))];
    var mid := Apply(s, RefreshPulled);
    assert es[1..] == [Resolved(FirstPage, Items(xs))];
    assert Run(mid, es[1..]) == Run(Apply(mid, es[1]), []);
  }

  /** A refresh whose request fails moves the cursor back to page 1 but keeps
      the products on display. */
  lemma RefreshThenFailure(s: FeedState, message: string)
    ensures Run(s, [RefreshPulled, Resolved(FirstPage, Error(message))])
         == FeedState(FirstPage, s.products, ApiResponse([], Fail, message))
  {
    var es := [RefreshPulled, Resolved(FirstPage, Error(message))];
    var mid := Apply(s, RefreshPulled);
    assert es[1..] == [Resolved(FirstPage, Error(message))];
    assert Run(mid, es[1..]) == Run(Apply(mid, es[1]), []);
  }

  /** The list screen's state, updated in place by its handlers. */
  class FeedScreen {
    var page: int
    var products: seq<Product>
    var apiProducts: ApiResponse

    ghost predicate Valid()
      reads this
    {
      PageInRange(page)
    }

    function State(): FeedState
      reads this
    {
      FeedState(page, products, apiProducts)
    }

    constructor ()
      ensures Valid()
      ensures State() == InitialState()
    {
      page := FirstPage;
      products := [];
      apiProducts := ApiResponse([], Initial, "");
    }

    /** The first step of `fetchProducts`, before it awaits the network: the
        status becomes LOADING; data and message are kept. */
    method StartFetch()
      modifies this
      ensures page == old(page) && products == old(products)
      ensures apiProducts == ApiResponse(old(apiProducts).data, Loading, old(apiProducts).errorMessage)
      ensures State() == Started(old(State()))
    {
      apiProducts := apiProducts.(status := Loading);
    }

    /** The request for page `pageNo` delivered `items`. */
    method FetchSucceeded(pageNo: int, items: seq<Product>)
      modifies this
      ensures page == old(page)
      ensures pageNo == 1 ==> products == items
      ensures pageNo != 1 ==> products == old(products) + items
      ensures apiProducts == ApiResponse(old(apiProducts).data + items, Succcess, "")
      ensures State() == Succeeded(old(State()), pageNo, items)
    {
      apiProducts := ApiResponse(apiProducts.data + items, Succcess, "");
      if pageNo == 1 {
        products := items;
      } else {
        products := products + items;
      }
    }

    /** The request failed; `message` is the string form of the error. */
    method FetchFailed(message: string)
      modifies this
      ensures page == old(page) && products == old(products)
      ensures apiProducts == ApiResponse([], Fail, message)
      ensures State() == Failed(old(State()), message)
    {
      apiProducts := ApiResponse([], Fail, message);
    }

    /** The end of `fetchProducts`: the awaited request for page `pageNo`
        either delivers a page or throws. */
    method Settle(pageNo: int, result: FetchResult)
      requires Valid()
      modifies this
      ensures Valid()
      ensures State() == Apply(old(State()), Resolved(pageNo, result))
    {
      match result
      case Items(xs) => FetchSucceeded(pageNo, xs);
      case Error(m) => FetchFailed(m);
    }

    /** `fetchMoreProducts`: advance the cursor and fetch the next page, but
        only while that page is below the cap. */
    method FetchMoreProducts() returns (request: Option<int>)
      requires Valid()
      modifies this
      ensures Valid()
      ensures request.Some? <==> old(page) + 1 < MaxPageExclusive
      ensures request.Some? ==> request.value == old(page) + 1 && page == old(page) + 1
                                && products == old(products)
                                && apiProducts == old(apiProducts).(status := Loading)
      ensures request.None? ==> page == old(page) && products == old(products) && apiProducts == old(apiProducts)
      ensures request == Requested(old(State()), EndReached)
      ensures State() == Apply(old(State()), EndReached)
    {
      var newPage := page + 1;
      if newPage < MaxPageExclusive {
        page := newPage;
        StartFetch();
        request := Some(newPage);
      } else {
        request := None;
      }
    }

    /** `onRefresh`: fetch the first page and put the cursor back on it. The
        list itself is only replaced when that page arrives. */
    method Refresh() returns (request: int)
      requires Valid()
      modifies this
      ensures Valid()
      ensures request == FirstPage && page == FirstPage
      ensures products == old(products)
      ensures apiProducts == old(apiProducts).(status := Loading)
      ensures Some(request) == Requested(old(State()), RefreshPulled)
      ensures State() == Apply(old(State()), RefreshPulled)
    {
      StartFetch();
      page := FirstPage;
      request := FirstPage;
    }

    /** The "Get Products" button: with products on display it loads more,
        otherwise it fetches the first page without touching the cursor. */
    method PressGetProducts() returns (request: Option<int>)
      requires Valid()
      modifies this
      ensures Valid()
      ensures |old(products)| == 0 ==> request == Some(FirstPage) && page == old(page)
                                       && products == old(products)
                                       && apiProducts == old(apiProducts).(status := Loading)
      ensures request == Requested(old(State()), ButtonPressed)
      ensures State() == Apply(old(State()), ButtonPressed)
    {
      if |products| > 0 {
        request := FetchMoreProducts();
      } else {
        StartFetch();
        request := Some(FirstPage);
      }
    }
  }
}

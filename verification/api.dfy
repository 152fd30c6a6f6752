/**
 * The Spotify Web API client (assets/js/api.js): how one request's responses are
 * classified, how the saved-tracks listing is paged through, and the
 * exponential-backoff retry wrapper.
 *
 * The network is represented by a script: the responses the server gives, in
 * the order the client asks. A rate-limited answer (status 429, RFC 6585
 * section 4) makes the client wait and ask again with no cap on the number of
 * rounds, so a request whose script holds nothing but 429 answers is still
 * waiting when the script ends (`Waiting`). Waits are recorded as millisecond
 * amounts rather than performed.
 */
module Api {
  import opened Common
  import opened Library

  const BASE_URL := "https://api.spotify.com/v1"
  const TRACKS_URL := BASE_URL + "/me/tracks"

  const TOKEN_REQUIRED := "Access token required"
  const AUTH_FAILED := "Authentication failed. Please log in again."
  const FORBIDDEN := "Access forbidden. Please check your permissions."
  const SERVER_ERROR := "Spotify API error. Please try again later."

  /** Seconds to wait after a 429 that carries no `Retry-After` header (or an empty one). */
  const DEFAULT_RETRY_AFTER := 3

  /** The JSON error body of a failed response; "" stands for an absent field. */
  datatype ErrorBody = ErrorBody(errorMessage: string, errorDescription: string)

  /**
   * One HTTP response: status line, the `Retry-After` header in seconds
   * (RFC 9110 section 10.2.3; `None` when absent), the parsed body of a
   * successful answer, and the parsed error body of a failed one (`None` when it
   * is not JSON).
   */
  datatype HttpResponse<T> = HttpResponse(
    status: int,
    statusText: string,
    retryAfter: Option<nat>,
    data: T,
    errorBody: Option<ErrorBody>)

  /** How an asynchronous call ends: it resolves, it rejects, or it is still waiting for the network. */
  datatype Completion<T> = Returned(value: T) | Threw(message: string) | Waiting

  /**
   * One `makeRequest`: how it ends, how many scripted responses it consumed, the
   * waits it made, and the address of each request it sent.
   */
  datatype Call<T> = Call(completion: Completion<T>, consumed: nat, waitsMs: seq<int>, asked: seq<string>)

  /** A page of `GET /me/tracks`; `next` is "" where the API sends `null`. */
  datatype Page = Page(items: seq<SavedItem>, total: int, next: string)

  /** `response.ok`. */
  predicate IsOk(status: int) {
    200 <= status <= 299
  }

  /** The wait before re-asking after a 429: the `Retry-After` seconds, else three seconds. */
  function WaitMs<T>(r: HttpResponse<T>): (ms: int)
    ensures r.retryAfter.None? ==> ms == 3000
    ensures r.retryAfter.Some? ==> ms == r.retryAfter.value * 1000
  {
    (if r.retryAfter.Some? then r.retryAfter.value else DEFAULT_RETRY_AFTER) * 1000
  }

  /**
   * The message thrown for a failed response other than 429: the status-specific
   * messages first, then the body's `error.message`, then `error_description`,
   * then the status line.
   */
  function ErrorMessage<T>(r: HttpResponse<T>): (m: string)
    ensures m != ""
    ensures r.status == 401 ==> m == AUTH_FAILED
    ensures r.status == 403 ==> m == FORBIDDEN
    ensures r.status >= 500 ==> m == SERVER_ERROR
    ensures r.status != 401 && r.status != 403 && r.status < 500 ==>
              (r.errorBody.Some? && r.errorBody.value.errorMessage != "" ==> m == r.errorBody.value.errorMessage)
    ensures r.status != 401 && r.status != 403 && r.status < 500 ==>
              (r.errorBody.Some? && r.errorBody.value.errorMessage == "" && r.errorBody.value.errorDescription != "" ==>
                 m == r.errorBody.value.errorDescription)
    ensures r.status != 401 && r.status != 403 && r.status < 500 ==>
              (r.errorBody.None? || r.errorBody.value == ErrorBody("", "") ==>
                 m == "API Error: " + IntToString(r.status) + " " + r.statusText)
  {
    var fallback := "API Error: " + IntToString(r.status) + " " + r.statusText;
    var fromBody :=
      if r.errorBody.Some? then Or(Or(r.errorBody.value.errorMessage, r.errorBody.value.errorDescription), fallback)
      else fallback;
    if r.status == 401 then AUTH_FAILED
    else if r.status == 403 then FORBIDDEN
    else if r.status >= 500 then SERVER_ERROR
    else fromBody
  }

  /** The outcome of one response that is not a 429. */
  function Classify<T>(r: HttpResponse<T>): (c: Completion<T>)
    ensures c != Waiting
    ensures c.Returned? <==> IsOk(r.status)
    ensures c.Returned? ==> c.value == r.data
    ensures c.Threw? ==> c.message == ErrorMessage(r)
  {
    if IsOk(r.status) then Returned(r.data) else Threw(ErrorMessage(r))
  }

  /**
   * `makeRequest`: with no access token it throws before asking anything;
   * otherwise each 429 answer is waited out and the same request asked again,
   * and the first other answer decides the outcome.
   */
  function MakeRequest<T>(token: string, url: string, responses: seq<HttpResponse<T>>): (c: Call<T>)
    ensures c.consumed <= |responses|
    ensures c.completion.Returned? ==> c.consumed >= 1
    ensures |c.asked| == c.consumed && forall k :: 0 <= k < |c.asked| ==> c.asked[k] == url
    decreases |responses|
  {
    if token == "" then Call(Threw(TOKEN_REQUIRED), 0, [], [])
    else if responses == [] then Call(Waiting, 0, [], [])
    else if responses[0].status == 429 then
      var again := MakeRequest(token, url, responses[1..]);
      Call(again.completion, again.consumed + 1, [WaitMs(responses[0])] + again.waitsMs, [url] + again.asked)
    else Call(Classify(responses[0]), 1, [], [url])
  }

  /**
   * What one request consumes and decides: the leading 429 answers are each
   * waited out, the first other answer is classified, and with no answer left
   * the request is still waiting.
   */
  lemma {:induction false} MakeRequestSpec<T>(token: string, url: string, responses: seq<HttpResponse<T>>)
    ensures var c := MakeRequest(token, url, responses);
      && (token == "" ==> c == Call(Threw(TOKEN_REQUIRED), 0, [], []))
      && (token != "" && c.completion != Waiting ==>
            && 1 <= c.consumed <= |responses|
            && (forall k :: 0 <= k < c.consumed - 1 ==> responses[k].status == 429)
            && responses[c.consumed - 1].status != 429
            && c.completion == Classify(responses[c.consumed - 1]))
      && (token != "" && c.completion == Waiting ==>
            c.consumed == |responses| && forall k :: 0 <= k < |responses| ==> responses[k].status == 429)
      && |c.waitsMs| == (if c.completion == Waiting then c.consumed else if c.consumed == 0 then 0 else c.consumed - 1)
      && forall k :: 0 <= k < |c.waitsMs| ==> c.waitsMs[k] == WaitMs(responses[k])
    decreases |responses|
  {
    if token != "" && responses != [] && responses[0].status == 429 {
      MakeRequestSpec(token, url, responses[1..]);
    }
  }

  /** A rate-limited answer is invisible in the outcome: the retried request ends as the rest of the script decides. */
  lemma RateLimitTransparent<T>(token: string, url: string, limited: HttpResponse<T>, rest: seq<HttpResponse<T>>)
    requires token != "" && limited.status == 429
    ensures MakeRequest(token, url, [limited] + rest).completion == MakeRequest(token, url, rest).completion
    ensures MakeRequest(token, url, [limited] + rest).consumed == MakeRequest(token, url, rest).consumed + 1
  {
    assert ([limited] + rest)[1..] == rest;
  }

  /** A successful answer after any number of 429s is returned unchanged. */
  lemma {:induction false} SuccessAfterRateLimits<T>(token: string, url: string, limited: seq<HttpResponse<T>>, ok: HttpResponse<T>)
    requires token != "" && IsOk(ok.status)
    requires forall k :: 0 <= k < |limited| ==> limited[k].status == 429
    ensures MakeRequest(token, url, limited + [ok]) == Call(Returned(ok.data), |limited| + 1, WaitsOf(limited), AskedOf(url, |limited| + 1))
    decreases |limited|
  {
    if limited != [] {
      assert (limited + [ok])[1..] == limited[1..] + [ok];
      SuccessAfterRateLimits(token, url, limited[1..], ok);
      assert AskedOf(url, |limited| + 1) == [url] + AskedOf(url, |limited|);
    }
  }

  /** The waits a run of 429 answers asks for, in order. */
  function WaitsOf<T>(rs: seq<HttpResponse<T>>): (ws: seq<int>)
    ensures |ws| == |rs| && forall k :: 0 <= k < |rs| ==> ws[k] == WaitMs(rs[k])
  {
    seq(|rs|, k requires 0 <= k < |rs| => WaitMs(rs[k]))
  }

  /** `n` requests to the same address. */
  function AskedOf(url: string, n: nat): (a: seq<string>)
    ensures |a| == n && forall k :: 0 <= k < n ==> a[k] == url
  {
    seq(n, _ => url)
  }

  // ---------------------------------------------------------------------------
  // getLikedSongs

  /**
   * `getLikedSongs` URL: a `limit` or `offset` that is absent or 0 (both falsy)
   * takes its default, 50 and 0.
   */
  function LikedSongsUrl(limit: int, offset: int): (url: string)
    ensures IsPrefix(TRACKS_URL + "?limit=", url)
  {
    var l := if limit == 0 then 50 else limit;
    TRACKS_URL + "?limit=" + IntToString(l) + "&offset=" + IntToString(offset)
  }

  /** Asking with no options is asking for the first page of 50. */
  lemma LikedSongsDefaults(offset: int)
    ensures LikedSongsUrl(0, offset) == LikedSongsUrl(50, offset)
    ensures LikedSongsUrl(0, 0) == TRACKS_URL + "?limit=50&offset=0"
  {
    assert IntToString(50) == "50" by { assert NatToString(50) == NatToString(5) + ['0']; }
    assert IntToString(0) == "0";
    var query := "?limit=" + "50" + "&offset=" + "0";
    assert query == "?limit=50&offset=0";
    assert LikedSongsUrl(0, 0) == TRACKS_URL + query;
  }

  // ---------------------------------------------------------------------------
  // getAllLikedSongs

  /** How a walk over the pages ends. */
  datatype CrawlEnd = Finished | Failed(message: string) | Stalled

  /** The address of the first page `getAllLikedSongs` asks for. */
  const FIRST_PAGE_URL := TRACKS_URL + "?limit=50"

  /** The pages a walk obtained, in order, how it ended, and the address given to each `makeRequest`. */
  datatype Crawl = Crawl(pages: seq<Page>, end: CrawlEnd, urls: seq<string>)

  /**
   * The walk `getAllLikedSongs` performs over the script from `url`: request a
   * page, and while the page names a `next` one, request that.
   */
  function CrawlPages(token: string, url: string, responses: seq<HttpResponse<Page>>): (c: Crawl)
    ensures |c.urls| >= 1 && c.urls[0] == url
    decreases |responses|
  {
    var call := MakeRequest(token, url, responses);
    match call.completion
    case Waiting => Crawl([], Stalled, [url])
    case Threw(e) => Crawl([], Failed(e), [url])
    case Returned(page) =>
      if page.next == "" then Crawl([page], Finished, [url])
      else
        var rest := CrawlPages(token, page.next, responses[call.consumed..]);
        Crawl([page] + rest.pages, rest.end, [url] + rest.urls)
  }

  /** Every page of a walk but a finishing last one names a `next` page; without a token the walk fails at once. */
  lemma {:induction false} CrawlPagesShape(token: string, url: string, responses: seq<HttpResponse<Page>>)
    ensures var c := CrawlPages(token, url, responses);
      && (c.end.Finished? ==> |c.pages| >= 1 && c.pages[|c.pages| - 1].next == "")
      && (forall k :: 0 <= k < |c.pages| ==> c.pages[k].next != "" || (k == |c.pages| - 1 && c.end.Finished?))
      && (token == "" ==> c == Crawl([], Failed(TOKEN_REQUIRED), [url]))
    decreases |responses|
  {
    var call := MakeRequest(token, url, responses);
    if call.completion.Returned? && call.completion.value.next != "" {
      var page := call.completion.value;
      var rest := CrawlPages(token, page.next, responses[call.consumed..]);
      CrawlPagesShape(token, page.next, responses[call.consumed..]);
      var c := CrawlPages(token, url, responses);
      assert c.pages == [page] + rest.pages;
      forall k | 0 <= k < |c.pages|
        ensures c.pages[k].next != "" || (k == |c.pages| - 1 && c.end.Finished?)
      {
        if k > 0 {
          assert c.pages[k] == rest.pages[k - 1];
        }
      }
    }
  }

  /**
   * The addresses of a walk: it starts at `url`, each page's `next` is the
   * address asked after it, and one request is made per page plus one for the
   * request that failed or is still waiting.
   */
  lemma {:induction false} CrawlAddresses(token: string, url: string, responses: seq<HttpResponse<Page>>)
    ensures var c := CrawlPages(token, url, responses);
      && c.urls[0] == url
      && |c.urls| == (if c.end.Finished? then |c.pages| else |c.pages| + 1)
      && forall k :: 0 <= k < |c.urls| - 1 ==> c.urls[k + 1] == c.pages[k].next
    decreases |responses|
  {
    var call := MakeRequest(token, url, responses);
    if call.completion.Returned? && call.completion.value.next != "" {
      var page := call.completion.value;
      var rest := CrawlPages(token, page.next, responses[call.consumed..]);
      CrawlAddresses(token, page.next, responses[call.consumed..]);
      var c := CrawlPages(token, url, responses);
      assert c.pages == [page] + rest.pages && c.urls == [url] + rest.urls;
      forall k | 0 <= k < |c.urls| - 1
        ensures c.urls[k + 1] == c.pages[k].next
      {
        if k > 0 {
          assert c.urls[k + 1] == rest.urls[k] && c.pages[k] == rest.pages[k - 1];
        }
      }
    }
  }

  /** The items of the pages, concatenated in page order. */
  function Flatten(pages: seq<Page>): (items: seq<SavedItem>)
    decreases |pages|
  {
    if pages == [] then [] else Flatten(pages[..|pages| - 1]) + pages[|pages| - 1].items
  }

  lemma FlattenSnoc(pages: seq<Page>, page: Page)
    ensures Flatten(pages + [page]) == Flatten(pages) + page.items
  {
    assert (pages + [page])[..|pages|] == pages;
  }

  lemma {:induction false} FlattenAppend(a: seq<Page>, b: seq<Page>)
    ensures Flatten(a + b) == Flatten(a) + Flatten(b)
    decreases |b|
  {
    if b == [] {
      assert a + b == a;
    } else {
      assert (a + b)[..|a + b| - 1] == a + b[..|b| - 1];
      FlattenAppend(a, b[..|b| - 1]);
    }
  }

  /** Each song of the result belongs to exactly one page, and nothing is added: the count is the sum of the page sizes. */
  lemma {:induction false} FlattenLength(pages: seq<Page>)
    ensures |Flatten(pages)| == SumSizes(pages)
    decreases |pages|
  {
    if pages != [] {
      FlattenLength(pages[..|pages| - 1]);
    }
  }

  function SumSizes(pages: seq<Page>): nat
    decreases |pages|
  {
    if pages == [] then 0 else SumSizes(pages[..|pages| - 1]) + |pages[|pages| - 1].items|
  }

  /** One call of the progress callback: songs fetched so far and the reported total. */
  datatype Progress = Progress(fetched: nat, total: int)

  /** The reports made after each of `pages`: the running number of songs and that page's total. */
  predicate ReportsFor(progress: seq<Progress>, pages: seq<Page>) {
    && |progress| == |pages|
    && forall k :: 0 <= k < |progress| ==> progress[k] == Progress(|Flatten(pages[..k + 1])|, pages[k].total)
  }

  lemma ReportsForSnoc(progress: seq<Progress>, pages: seq<Page>, page: Page)
    requires ReportsFor(progress, pages)
    ensures ReportsFor(progress + [Progress(|Flatten(pages)| + |page.items|, page.total)], pages + [page])
  {
    var pages' := pages + [page];
    assert pages'[..|pages'|] == pages';
    assert pages'[..|pages'| - 1] == pages;
    var progress' := progress + [Progress(|Flatten(pages)| + |page.items|, page.total)];
    forall k | 0 <= k < |pages|
      ensures progress'[k] == Progress(|Flatten(pages'[..k + 1])|, pages'[k].total)
    {
      assert pages'[..k + 1] == pages[..k + 1];
    }
  }

  /** The progress calls made for `pages`, one per page in order. */
  function ReportsOf(pages: seq<Page>): (ps: seq<Progress>)
    ensures |ps| == |pages|
    decreases |pages|
  {
    if pages == [] then []
    else
      var last := pages[|pages| - 1];
      ReportsOf(pages[..|pages| - 1]) + [Progress(|Flatten(pages)|, last.total)]
  }

  lemma {:induction false} ReportsOfSnoc(pages: seq<Page>, page: Page)
    ensures ReportsOf(pages + [page]) == ReportsOf(pages) + [Progress(|Flatten(pages)| + |page.items|, page.total)]
  {
    assert (pages + [page])[..|pages|] == pages;
    FlattenSnoc(pages, page);
  }

  /** Report k carries the number of songs on the first k + 1 pages and page k's total. */
  lemma {:induction false} ReportsOfMeaning(pages: seq<Page>)
    ensures ReportsFor(ReportsOf(pages), pages)
    decreases |pages|
  {
    if pages != [] {
      var init := pages[..|pages| - 1];
      ReportsOfMeaning(init);
      ReportsForSnoc(ReportsOf(init), init, pages[|pages| - 1]);
      assert init + [pages[|pages| - 1]] == pages;
      FlattenSnoc(init, pages[|pages| - 1]);
    }
  }

  /** The reports are determined by the pages. */
  lemma ReportsForUnique(progress: seq<Progress>, pages: seq<Page>)
    requires ReportsFor(progress, pages)
    ensures progress == ReportsOf(pages)
  {
    ReportsOfMeaning(pages);
  }

  /** The walk from `url` continued after the pages already gathered from the addresses already asked. */
  function Resume(token: string, done: seq<Page>, asked: seq<string>, url: string, responses: seq<HttpResponse<Page>>): Crawl {
    var c := CrawlPages(token, url, responses);
    Crawl(done + c.pages, c.end, asked + c.urls)
  }

  /** One step of the walk, seen from the pages already gathered: how the request's outcome continues it. */
  lemma CrawlStep(token: string, url: string, responses: seq<HttpResponse<Page>>, done: seq<Page>, asked: seq<string>)
    ensures var call := MakeRequest(token, url, responses);
      match call.completion
      case Waiting => Resume(token, done, asked, url, responses) == Crawl(done, Stalled, asked + [url])
      case Threw(e) => Resume(token, done, asked, url, responses) == Crawl(done, Failed(e), asked + [url])
      case Returned(page) =>
        && call.consumed >= 1
        && (page.next == "" ==> Resume(token, done, asked, url, responses) == Crawl(done + [page], Finished, asked + [url]))
        && (page.next != "" ==>
              Resume(token, done, asked, url, responses) ==
                Resume(token, done + [page], asked + [url], page.next, responses[call.consumed..]))
  {
    var call := MakeRequest(token, url, responses);
    assert done + [] == done;
    if call.completion.Returned? && call.completion.value.next != "" {
      var page := call.completion.value;
      var rest := CrawlPages(token, page.next, responses[call.consumed..]);
      assert done + ([page] + rest.pages) == (done + [page]) + rest.pages;
      assert asked + ([url] + rest.urls) == (asked + [url]) + rest.urls;
    }
  }

  /** The walk after a request that returned a page: it finishes there or continues from the page's `next`. */
  lemma CrawlContinues(token: string, url: string, rest: seq<HttpResponse<Page>>, done: seq<Page>, asked: seq<string>, page: Page)
    requires MakeRequest(token, url, rest).completion == Returned(page)
    ensures 1 <= MakeRequest(token, url, rest).consumed <= |rest|
    ensures page.next == "" ==> Resume(token, done, asked, url, rest) == Crawl(done + [page], Finished, asked + [url])
    ensures page.next != "" ==>
              Resume(token, done, asked, url, rest) ==
                Resume(token, done + [page], asked + [url], page.next, rest[MakeRequest(token, url, rest).consumed..])
  {
    CrawlStep(token, url, rest, done, asked);
  }

  /** The walk after a request that failed or is still waiting: it ends there with the pages gathered. */
  lemma CrawlStops(token: string, url: string, rest: seq<HttpResponse<Page>>, done: seq<Page>, asked: seq<string>)
    requires !MakeRequest(token, url, rest).completion.Returned?
    ensures MakeRequest(token, url, rest).completion.Waiting? ==>
              Resume(token, done, asked, url, rest) == Crawl(done, Stalled, asked + [url])
    ensures MakeRequest(token, url, rest).completion.Threw? ==>
              Resume(token, done, asked, url, rest) ==
                Crawl(done, Failed(MakeRequest(token, url, rest).completion.message), asked + [url])
  {
    CrawlStep(token, url, rest, done, asked);
  }

  /**
   * `getAllLikedSongs`: follows `next` links from the first page of 50 until
   * one is `null`, accumulating the items; after each page it reports
   * `(fetchedCount, total)`. A failed page rethrows its error and the
   * songs gathered so far are dropped. `requested` lists the address given
   * to each `makeRequest`, in order.
   */
  method GetAllLikedSongs(token: string, responses: seq<HttpResponse<Page>>)
    returns (outcome: Completion<seq<SavedItem>>, progress: seq<Progress>, requested: seq<string>)
    ensures var c := CrawlPages(token, FIRST_PAGE_URL, responses);
      && (c.end.Finished? ==> outcome == Returned(Flatten(c.pages)))
      && (c.end.Failed? ==> outcome == Threw(c.end.message))
      && (c.end.Stalled? ==> outcome == Waiting)
      && progress == ReportsOf(c.pages)
      && requested == c.urls
  {
    var allSongs: seq<SavedItem> := [];
    var nextUrl := FIRST_PAGE_URL;
    var totalSongs := 0;
    var fetchedCount := 0;
    var pos := 0;
    ghost var rest := responses;
    ghost var done: seq<Page> := [];
    ghost var whole := CrawlPages(token, FIRST_PAGE_URL, responses);
    progress := [];
    requested := [];
    assert [] + whole.pages == whole.pages && [] + whole.urls == whole.urls;
    while nextUrl != ""
      invariant 0 <= pos <= |responses| && rest == responses[pos..]
      invariant allSongs == Flatten(done) && fetchedCount == |allSongs|
      invariant nextUrl != "" ==> whole == Resume(token, done, requested, nextUrl, rest)
      invariant nextUrl == "" ==> whole == Crawl(done, Finished, requested)
      invariant progress == ReportsOf(done)
      decreases |responses| - pos, nextUrl != ""
    {
      var call := MakeRequest(token, nextUrl, responses[pos..]);
      match call.completion {
        case Waiting =>
          CrawlStops(token, nextUrl, rest, done, requested);
          return Waiting, progress, requested + [nextUrl];
        case Threw(e) =>
          CrawlStops(token, nextUrl, rest, done, requested);
          return Threw(e), progress, requested + [nextUrl];
        case Returned(data) =>
          CrawlContinues(token, nextUrl, rest, done, requested, data);
          ReportsOfSnoc(done, data);
          FlattenSnoc(done, data);
          allSongs := allSongs + data.items;
          totalSongs := data.total;
          fetchedCount := fetchedCount + |data.items|;
          progress := progress + [Progress(fetchedCount, totalSongs)];
          requested := requested + [nextUrl];
          nextUrl := data.next;
          rest := rest[call.consumed..];
          pos := pos + call.consumed;
          done := done + [data];
      }
    }
    outcome := Returned(allSongs);
  }

  // ---------------------------------------------------------------------------
  // retryRequest

  /** Does the error message mark an authentication failure, which is never retried? */
  predicate IsAuthError(message: string) {
    Contains(message, "Authentication failed") || Contains(message, "401")
  }

  function Pow2(k: nat): (p: nat)
    ensures p >= 1
  {
    if k == 0 then 1 else 2 * Pow2(k - 1)
  }

  /**
   * `retryRequest`: at most `maxRetries + 1` attempts; after failed attempt k it
   * waits `baseDelay * 2^k` ms; an authentication error is rethrown at once, and
   * after the last attempt its error is rethrown. `attempt(k)` is the outcome of
   * the k-th call of the request function.
   */
  method RetryRequest<T>(attempt: nat -> Result<T>, maxRetries: nat, baseDelay: int)
    returns (r: Result<T>, delaysMs: seq<int>)
    ensures |delaysMs| <= maxRetries
    ensures r == attempt(|delaysMs|)
    ensures forall k :: 0 <= k < |delaysMs| ==>
              attempt(k).Err? && !IsAuthError(attempt(k).message) && delaysMs[k] == baseDelay * Pow2(k)
    ensures r.Err? ==> IsAuthError(r.message) || |delaysMs| == maxRetries
  {
    delaysMs := [];
    var k := 0;
    while true
      invariant 0 <= k <= maxRetries && |delaysMs| == k
      invariant forall j :: 0 <= j < k ==>
                  attempt(j).Err? && !IsAuthError(attempt(j).message) && delaysMs[j] == baseDelay * Pow2(j)
      decreases maxRetries - k
    {
      r := attempt(k);
      if r.Ok? || IsAuthError(r.message) || k == maxRetries {
        return;
      }
      delaysMs := delaysMs + [baseDelay * Pow2(k)];
      k := k + 1;
    }
  }
}

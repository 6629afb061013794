# A verified model of a same-domain asynchronous web crawler

This project models the crawl engine of a small Python crawler and proves
properties of the model. It covers the following parts.

- **URL normalisation** (`normalize_url`, crawler/utils.py): the scheme is
  forced to `https`, the host is lowered, an empty path becomes `/`, and
  params, query and fragment are dropped. Module `UrlNorm` proves that
  canonical URLs are exactly the fixpoints of the normaliser, that
  normalising is idempotent, and that two URLs are the same crawl target
  exactly when their hosts differ only in case and their effective paths
  agree.
- **The fetcher** (`AsyncWebCrawler.fetch`, crawler/crawler.py): at most
  `retries` attempts. A connection failure or timeout is logged, slept on for
  2^attempt, and retried; after the last attempt the crawler gives up with a
  single error. A response error is logged once, 404 with its own message,
  and not retried. It is raised by `raise_for_status` for every status from
  400 on, or by `session.get` itself with any status (`TooManyRedirects`
  carries 0). Any other exception is logged once as an error.
  An HTML page is read and its links handed to `enqueue_urls`; anything else
  is skipped. Module `Fetching` gives the loop as a method, `Fetch`, and as a
  recursive specification, `Attempts`, proves them equal, and proves the
  retry, back-off and content-type properties about `Attempts`.
- **The frontier and the workers** (`AsyncWebCrawler`, crawler/crawler.py):
  the visited set, the FIFO queue with asyncio's count of unfinished tasks,
  `enqueue_urls`, one iteration of `worker` (get, check and mark visited under
  the lock, fetch, `task_done`), `join`, and `crawl`'s drain-then-cancel
  protocol. Class `Crawler.AsyncWebCrawler` keeps these invariants:
  - every unfinished task is a queued URL or one a worker holds;
  - no URL is fetched twice;
  - every fetched URL is visited;
  - every queued URL is the seed or in the domain.
- **The older single-file crawler** (crawler.py): a set of URLs to visit,
  popped in arbitrary order and scheduled in batches of at most ten fetches.
  A page is marked visited under its final URL, and only when it is HTML;
  `parse_links` normalises and filters the page's links. Module
  `SnapshotCrawler` gives one pass of `crawl`'s loop as a function, `PopStep`,
  and the loop over a given order of pops as `Replay`. The `Crawl` method is
  proved to end in the state `Replay` gives for the URLs it actually popped,
  and to stop only when the set is empty or its pop bound is reached. About
  the loop it proves the following:
  - a pop schedules its URL exactly when the URL is not visited at that pop
    and is in the domain; over the whole crawl, the gathered batches laid end
    to end are exactly these URLs, in pop order;
  - a pop gathers exactly when ten fetches are then scheduled or the set has
    run empty; otherwise only the popped URL leaves the set;
  - a gathered batch runs every one of its fetches; the visited set gains
    exactly the final URLs of the batch's HTML pages, and the set to visit
    gains only normalised, in-domain links of those pages that were not
    visited before the batch;
  - every batch holds at most ten distinct URLs, none visited before the crawl;
  - every URL waiting in the set starts with "https://" and is the seed or in the domain;
  - the `if tasks:` flush after the loop finds nothing left once the set has drained.

`urlparse` is a parameter (`parse: string -> Url`) everywhere a string is
parsed. What the network answers is an input: the outcome of each attempt in
`Fetching`, and the outcome for each URL in the crawl methods.

## Model

| member | source | states |
|---|---|---|
| UrlNorm.Lower | crawler/utils.py:7 | lowering keeps the length, lowers every character, and leaves no upper-case letter |
| UrlNorm.EffectivePath | crawler/utils.py:8 | the path a URL is crawled under is never empty |
| UrlNorm.Normalize | crawler/utils.py:6-10 | the normalised record always has scheme "https", a lower-case host, a non-empty path and no params, query or fragment |
| UrlNorm.NormalizeUrl | crawler/utils.py:4-11 | every normalised URL starts with "https://" |
| UrlNorm.LowerFixpoint | crawler/utils.py:7 | lowering leaves a host unchanged exactly when it has no upper-case letter |
| UrlNorm.LowerIdempotent | crawler/utils.py:7 | lowering a lowered host changes nothing |
| UrlNorm.LowerEqualIffEqualIgnoringCase | crawler/utils.py:7 | two hosts lower to the same string exactly when they differ only in letter case |
| UrlNorm.NormalizeFixpoint | crawler/utils.py:6-10 | a parsed URL is left unchanged by normalisation exactly when it is already canonical |
| UrlNorm.NormalizeIdempotent | crawler/utils.py:6-10 | normalising twice is normalising once |
| UrlNorm.SameTarget | crawler/utils.py:5-10 | two parsed URLs normalise alike exactly when their hosts differ only in case and their paths agree once "" is read as "/"; scheme, params, query and fragment play no part |
| UrlNorm.NormalizeUrlIdempotent | crawler/utils.py:4-11 | when parsing a normalised URL gives back its components, normalising it again returns the same string |
| UrlNorm.NormalizeUrlRooted | crawler/utils.py:10 | a URL with a host and a rooted path is written out as "https://", the lowered host, and the path |
| UrlNorm.RenderCanonical | crawler/utils.py:10 | `urlunparse` of a canonical record with a host and a rooted path is "https://" + host + path |
| UrlNormExamples.NormalizeExampleRoot | tests/test_utils.py:10 | "https://example.com" normalises to "https://example.com/" |
| UrlNormExamples.NormalizeExampleHttp | tests/test_utils.py:11 | "http://example.com/some/page" normalises to "https://example.com/some/page" |
| UrlNormExamples.NormalizeExampleQuery | tests/test_utils.py:12 | "https://EXAMPLE.COM/TEST?query=string" normalises to "https://example.com/TEST": the host is lowered, the path keeps its case, the query is dropped |
| UrlNormExamples.ExampleRooted | tests/test_utils.py:11-12 | a URL on the tests' host, in either case, with a rooted path normalises to "https://example.com" followed by the path |
| Fetching.IsHtml | crawler/crawler.py:62-63 | the content-type gate: the lowered Content-Type header contains "text/html" |
| Fetching.HtmlGateIgnoresCase | crawler/crawler.py:62-63 | the gate ignores letter case: a content type passes exactly when its lowered form does |
| Fetching.ResponseErrorMessage | crawler/crawler.py:73-76 | the warning for a response error is "URL not found" exactly for status 404, and otherwise names the status and the message |
| Fetching.Text | crawler/crawler.py:64-87 | the text of each log line, as the f-strings of `fetch` spell it |
| Fetching.TextTellsKind | crawler/crawler.py:64-87 | log lines of different kinds never have the same text |
| Fetching.TextNamesUrl | crawler/crawler.py:64-87 | every log line contains the URL it is about |
| Fetching.Settle | crawler/crawler.py:61-77 | every attempt that ends the loop yields one to three events, the first of them a log line |
| Fetching.ResponseErrorsAgree | crawler/crawler.py:72-77 | a response error is handled alike whether `raise_for_status` raised it or `session.get` did: one warning, and the loop ends |
| Fetching.Attempts | crawler/crawler.py:50-88 | a fetch with at least one attempt left makes between 1 and that many attempts; with none left, it does nothing |
| Fetching.Fetch | crawler/crawler.py:50-88 | the `for attempt in range(retries)` loop, with its `return`s and `break`s, produces exactly the trace and attempt count of `Attempts` |
| Fetching.AttemptSettles | crawler/crawler.py:61-77 | a response, a response error or an unhandled exception ends the loop after that attempt, with only that attempt's events |
| Fetching.AttemptRetries | crawler/crawler.py:78-82 | a connection failure before the last attempt logs "Attempt n failed", sleeps 2^attempt, and goes on to the next attempt |
| Fetching.RetryFilters | crawler/crawler.py:78-82 | a connection failure before the last attempt adds exactly one attempt, its numbered warning and a sleep of 2^attempt to the later attempts' events, and no error, link or body read |
| Fetching.GiveUpFilters | crawler/crawler.py:78-85 | the last attempt failing to connect logs its warning and the single "Failed to fetch ... after n attempts" error, with no sleep, link or body read |
| Fetching.SettleSleeps | crawler/crawler.py:61-77 | an attempt that ends the loop never sleeps |
| Fetching.SettleLogs | crawler/crawler.py:72-77 | an attempt that ends the loop logs an error only for an unhandled exception, and one warning only for a response error |
| Fetching.SettleLinks | crawler/crawler.py:62-71 | an attempt that ends the loop reads the body and hands links on exactly when it got an HTML response that passed `raise_for_status`, and then hands on exactly that page's links |
| Fetching.BackoffBetweenAttempts | crawler/crawler.py:78-82 | the sleeps of a fetch are 2^a, 2^(a+1), ...: exactly one between consecutive attempts and none after the last |
| Fetching.ConnectionFailuresExhaust | crawler/crawler.py:78-85 | when every attempt fails to connect, all of them are made; each logs a warning with its number and error; the sleeps are the back-offs; a single error reports giving up after `retries` attempts; no link is handed on |
| Fetching.ExhaustErrors | crawler/crawler.py:78-85 | when every remaining attempt fails to connect, all of them are made, the only error is the one for giving up, and no link is handed on |
| Fetching.ExhaustWarnings | crawler/crawler.py:78-80 | when every remaining attempt fails to connect, the warnings are exactly one per attempt, in order, each with its attempt number and error |
| Fetching.StopsAtFirstOtherOutcome | crawler/crawler.py:72-88 | when attempt k is the first that does not fail to connect, exactly k + 1 attempts are made and the trace ends with attempt k's own events |
| Fetching.NoRetryLogs | crawler/crawler.py:72-88 | such a fetch logs one warning per earlier failed attempt plus the last attempt's own lines, and no error or link but the last attempt's |
| Fetching.EnqueuesOnlyHtml | crawler/crawler.py:61-69 | the links a fetch hands on are exactly those of its last attempt's response when that is an HTML page that passed `raise_for_status`, and none otherwise |
| Fetching.ReadsOnlyHtml | crawler/crawler.py:61-65 | a fetch reads a body exactly when its last attempt got an HTML page that passed `raise_for_status` |
| Fetching.AtMostOneError | crawler/crawler.py:82-88 | a fetch logs at most one error |
| FetchingExamples.RetriesExhaustedExample | tests/test_crawler.py:63-84 | a transport that always fails to connect gives 3 attempts, 3 warnings, sleeps of 1 and 2, and one error |
| FetchingExamples.NotFoundExample | tests/test_crawler.py:87-112 | a 404 raised by `session.get` is logged once as "URL not found" and not retried |
| FetchingExamples.ForbiddenExample | tests/test_crawler.py:137-162 | a 403 raised by `session.get` is logged once with its status and message, and not retried |
| FetchingExamples.TooManyRedirectsExample | crawler/crawler.py:72-77 | a response error with status 0 is logged once as a client error with status 0, and not retried |
| FetchingExamples.ServerErrorExample | crawler/crawler.py:72-77 | a 503 is a response error like any other: logged once and not retried |
| FetchingExamples.UnhandledExample | tests/test_crawler.py:115-134 | any other exception is logged once as an error with its text, and not retried |
| FetchingExamples.NonHtmlExample | tests/test_crawler.py:44-60 | a JSON response is logged as skipped, and nothing else happens |
| FetchingExamples.HtmlExample | tests/test_crawler.py:17-41 | an HTML response is logged as visited, its body is read once, and its links are handed on |
| FetchingExamples.NotFoundText | tests/test_crawler.py:108-110 | the 404 warning for the seed reads "URL not found: https://example.com/" |
| FetchingExamples.SkippingText | tests/test_crawler.py:58-60 | the skip line for the seed reads "Skipping non-HTML content: https://example.com/" |
| FetchingExamples.HtmlPrefix | crawler/crawler.py:62-63 | a lower-case content type that starts with "text/html" passes the HTML gate |
| FetchingExamples.NoHtmlWithoutX | crawler/crawler.py:62-63 | a lower-case content type without an 'x' does not pass the HTML gate |
| FetchingExamples.HtmlContentType | tests/conftest.py:32 | "text/html; charset=utf-8" passes the HTML gate |
| FetchingExamples.JsonContentType | tests/conftest.py:41 | "application/json" does not pass the HTML gate |
| Crawler.InDomain | crawler/crawler.py:92 | the domain filter: the link's host, lowered, is exactly the crawl's domain |
| Crawler.InDomainIgnoresCase | crawler/crawler.py:92 | the domain filter accepts a link exactly when its host equals the domain up to letter case |
| Crawler.LongerHostOutOfDomain | crawler/crawler.py:92 | the match is exact: a subdomain, or a host with a port, is out of the domain |
| Crawler.SeedInDomain | crawler/crawler.py:19-20 | the normalised seed passes the domain filter derived from the raw seed |
| Crawler.Admitted | crawler/crawler.py:90-95 | `enqueue_urls` puts at most as many URLs as it is given |
| Crawler.AdmittedCounts | crawler/crawler.py:90-95 | `enqueue_urls` puts each in-domain, unvisited link as often as it occurs among the links, and nothing else |
| Crawler.AdmittedMembers | crawler/crawler.py:90-95 | a link is put exactly when it is among the links, in the domain, and not visited |
| Crawler.AsyncWebCrawler.constructor | crawler/crawler.py:18-25 | the normalised seed is the only queued URL with one unfinished task, nothing is visited, and the domain is the raw seed's host, lowered |
| Crawler.AsyncWebCrawler.Get | crawler/crawler.py:41 | takes the head of the queue and holds it in flight; on an empty queue nothing changes |
| Crawler.AsyncWebCrawler.MarkVisited | crawler/crawler.py:42-45 | the URL is new exactly when it was not visited; afterwards it is visited, and it is recorded as fetched only when new |
| Crawler.AsyncWebCrawler.TaskDone | crawler/crawler.py:47-48 | lowers the unfinished count exactly when a task is held; otherwise the count is already zero and nothing changes (asyncio's `ValueError`) |
| Crawler.AsyncWebCrawler.Enqueue | crawler/crawler.py:90-95 | appends to the queue, in order, exactly the admitted links, and raises the unfinished count by their number |
| Crawler.AsyncWebCrawler.Fetch | crawler/crawler.py:50-88 | runs the attempt loop of `Fetching.Attempts` and enqueues the links it hands on |
| Crawler.AsyncWebCrawler.WorkerIteration | crawler/crawler.py:38-48 | on an empty queue the worker waits; a visited URL is dropped; an unvisited one is marked visited, fetched once, and its admitted links are queued; in every case `task_done` is called |
| Crawler.AsyncWebCrawler.Join | crawler/crawler.py:33 | `join` returns exactly when the queue is empty and no worker holds a URL |
| Crawler.AsyncWebCrawler.Crawl | crawler/crawler.py:27-36 | it reports the queue drained exactly when the queue is empty, and then no task is unfinished; the cancelled workers' `task_done` calls leave the count at zero; every URL fetched is the seed or in the domain, and none is fetched twice; with no worker (`concurrency <= 0`) nothing is fetched and the queue stays as it was |
| CrawlerExamples.InitializationExample | tests/test_crawler.py:10-14 | the crawler for "https://example.com" with 5 workers has base URL "https://example.com/", domain "example.com", concurrency 5, and one queued URL |
| CrawlerExamples.HtmlFetchExample | tests/test_crawler.py:17-41 | fetching the seed's page, which links to two pages of the domain and one of a subdomain, leaves the seed and the two pages on the queue, and not the subdomain page |
| CrawlerExamples.HtmlPageLinks | tests/test_crawler.py:29-33 | a fetch whose first attempt gets an HTML page with status 200 hands on exactly that page's links |
| CrawlerExamples.FilterThree | tests/test_crawler.py:33-41 | of two in-domain links around an out-of-domain one, the two in-domain links are admitted, in order |
| CrawlerExamples.ExampleDomainHost | tests/test_crawler.py:38-40 | a link on "example.com" is in the domain "example.com" |
| CrawlerExamples.SubdomainHost | tests/test_crawler.py:41 | a link on "community.example.com" is not |
| CrawlerExamples.NotFoundSeedExample | crawler/crawler.py:38-48 | a seed that answers 404 is fetched once, then the queue is empty, no task is unfinished, and `join` returns |
| SnapshotCrawler.IsNewPage | crawler.py:45-51 | the gate of `fetch`: a response that passed `raise_for_status`, is HTML, and whose final URL is not visited |
| SnapshotCrawler.Printed | crawler.py:45-58 | `fetch` prints at most one line, and none exactly when it got an HTML page that passed `raise_for_status` and whose final URL was visited already |
| SnapshotCrawler.LinksToAdd | crawler.py:63-68 | every URL `parse_links` adds starts with "https://", is in the domain, and is not visited |
| SnapshotCrawler.LinksToAddMembers | crawler.py:63-68 | a URL is added exactly when it is the normal form of one of the links, in the domain, and not visited |
| SnapshotCrawler.Scheduled | crawler.py:19-24 | `crawl` schedules at most one fetch per pop |
| SnapshotCrawler.ScheduledMembers | crawler.py:19-24 | a URL is scheduled exactly when some pop of it found it unvisited and in the domain |
| SnapshotCrawler.HtmlPageUrlsMembers | crawler.py:45-51 | a URL is among the final URLs of a batch's HTML pages exactly when one of the batch's fetches got an HTML page that passed `raise_for_status` from it |
| SnapshotCrawler.RunBatch | crawler.py:26 | running a batch's fetches in order only adds to the visited set and to the set to visit |
| SnapshotCrawler.BatchLines | crawler.py:50-58 | a batch prints at most one line per fetch |
| SnapshotCrawler.BatchVisits | crawler.py:45-51 | a batch marks visited exactly the final URLs of its HTML pages that passed `raise_for_status`, whatever was visited before |
| SnapshotCrawler.BatchAdds | crawler.py:52-68 | every URL a batch adds to the set starts with "https://", is in the domain, was not visited before the batch, and is the normal form of a link of one of the batch's HTML pages |
| SnapshotCrawler.BatchLinesWithoutPages | crawler.py:45-58 | a batch with no HTML page among its replies prints exactly one line per fetch |
| SnapshotCrawler.PopStepGathers | crawler.py:19-27 | a pop gathers exactly when ten fetches are then scheduled or the set has run empty; a gather runs the scheduled fetches, in order, against the set without the popped URL, and leaves none scheduled; otherwise the pass only removes the popped URL and schedules it when it is not visited and in the domain |
| SnapshotCrawler.PopStepSchedules | crawler.py:19-24 | a pop adds to the fetches scheduled so far, gathered or not, exactly the popped URL when it is not visited and in the domain, and nothing otherwise |
| SnapshotCrawler.ReplayKeeps | crawler.py:14-27 | over any order of pops: fewer than ten distinct fetches wait, none of them still in the set and none once the set is empty; every batch holds at most ten distinct URLs; every scheduled URL is in the domain and was not visited at the start; the visited set has grown by exactly the final URLs of the HTML pages of the gathered fetches |
| SnapshotCrawler.ReplaySchedules | crawler.py:19-24 | over any order of pops, the fetches scheduled are exactly the pops that found their URL unvisited at that pop and in the domain, in order |
| SnapshotCrawler.FinishKeeps | crawler.py:28-29 | the flush after the loop gathers what is left, does nothing once the set has drained, and keeps the batch and visited-set facts above |
| SnapshotCrawler.AsyncWebCrawler.constructor | crawler.py:8-12 | the set to visit holds only the normalised seed, nothing is visited, and the domain is the raw seed's host, lowered |
| SnapshotCrawler.AsyncWebCrawler.NormalizeUrl | crawler.py:71-82 | the method computes the same URL as `normalize_url` of crawler/utils.py |
| SnapshotCrawler.AsyncWebCrawler.ParseLinks | crawler.py:60-69 | adds exactly the normalised in-domain, unvisited links to the set, and leaves the visited set alone |
| SnapshotCrawler.AsyncWebCrawler.Fetch | crawler.py:36-58 | every exception is caught; only a new HTML page marks its final URL visited and adds its links; a response error, a non-HTML page, a revisit, a timeout or any other exception changes nothing |
| SnapshotCrawler.AsyncWebCrawler.Gather | crawler.py:26-29 | every fetch of the batch runs, in order: the new sets and the printed lines are those of `RunBatch` and `BatchLines`, and the visited set gains exactly the final URLs of the batch's HTML pages |
| SnapshotCrawler.AsyncWebCrawler.Crawl | crawler.py:14-29 | the URLs popped are each in the set at their turn; the crawl ends in the state `Replay` and the final flush give for them, which fixes the sets, the printed lines and the batches; it stops early only when the set is empty; the batches laid end to end are the pops that found their URL unvisited and in the domain; every batch holds at most ten distinct URLs, none visited before the crawl; the visited set grows by exactly the final URLs of the HTML pages of every gathered fetch; drained means the set is empty |

## Left out

- `urlparse`, `urljoin` and `urlunparse` are Python's standard library. `urlparse` is the parameter `parse`. `urlunparse` is `UrlNorm.Render`, written only for schemes that carry a network location, which covers every record normalisation produces.
- Lowering is ASCII only; Python's `str.lower` also lowers non-ASCII letters.
- The HTTP session, its timeouts, headers and redirect following are inputs: each attempt's outcome, or each URL's reply, is given. In the older crawler the final URL after redirects is a field of the reply.
- Link extraction (`parse_links` of crawler/utils.py, BeautifulSoup) is not part of this model. The links of a page are part of its outcome, already joined with the page's URL.
- The text of aiohttp's exceptions is not modelled. In the older crawler a response error is printed as `StatusError(url, status)` rather than as aiohttp's message.
- Logging is recorded as `Log` events whose `Message` carries the values the f-strings mention; `Fetching.Text` spells them out. The logging configuration (logging_conf.py) and the entry point (main.py) are not part of this model.
- A failure after "Visiting" is not modelled: reading the body or extracting links could raise inside the `try`, and that exception would be handled like any other.
- Crawler.AsyncWebCrawler.Crawl: workers take turns one whole iteration at a time, with each locked section atomic; other interleavings of concurrent workers are not modelled. At most `fuel` worker steps are taken, because termination of the real crawl depends on the site. Each URL's outcomes come from a fixed function `network`.
- Crawler.AsyncWebCrawler.Fetch: `enqueue_urls` runs after the attempt loop rather than inside it. The loop returns right after enqueuing, so the effect is the same.
- SnapshotCrawler.AsyncWebCrawler.Gather: the fetches of a batch run one after another, in list order, and only this schedule is modelled. Under `asyncio.gather` a fetch suspends between marking its page visited and filtering its links (`await response.text()`, crawler.py:52). Its filter can then see the marks of other fetches of the batch. So two pages that link to each other, fetched in one batch, can both drop the link, where the sequential order keeps one of them. Some facts hold on every schedule: both sets only grow, the visited set gains exactly the final URLs of the batch's HTML pages, and only normalised in-domain links of those pages join the set. The exact sets and the order of the printed lines are stated only for the sequential schedule. The semaphore of `bounded_fetch` (crawler.py:31-34) only bounds concurrency and is not modelled.
- SnapshotCrawler.AsyncWebCrawler.Crawl: at most `fuel` URLs are popped, because the real loop need not terminate. Pop order is arbitrary, as for Python's `set.pop`, so the contract quantifies over it: `pops` records the order taken. Without the bound, the `if tasks:` flush after the loop never has anything to gather (`FinishKeeps`).
- The test that runs `crawl` with a mocked worker (tests/test_crawler.py:165-175) is not modelled, because the mock replaces the worker loop this model describes.

Three behaviours of the code are worth stating plainly:
- a 5xx response raises in `raise_for_status` and is logged once and not retried, like any other response error;
- the frontier is asyncio's FIFO queue;
- a worker that takes an already-visited URL drops it and calls `task_done`; it does not look for another URL within the same step.

/**
 * The crawler scenarios the tests of crawler/crawler.py assert, for a crawler
 * seeded with "https://example.com" and five workers, given what `urlparse`
 * returns for the URLs involved.
 */
module CrawlerExamples {
  import opened UrlNorm
  import opened Fetching
  import opened Crawler
  import UrlNormExamples
  import FetchingExamples

  /** What `urlparse` gives for the seed. */
  predicate ParsesSeed(parse: string -> Url) {
    parse("https://example.com") == Url("https", "example.com", "", "", "", "")
  }

  /** The initial state: normalised seed, lowered domain, one queued URL. */
  method InitializationExample(parse: string -> Url) returns (c: AsyncWebCrawler)
    requires ParsesSeed(parse)
    ensures c.baseUrl == "https://example.com/" && c.baseDomain == "example.com"
    ensures c.concurrency == 5 && c.queue == [c.baseUrl] && |c.queue| == 1 && c.unfinished == 1 && c.visited == {}
    ensures fresh(c) && c.parse == parse && c.Valid() && c.inFlight == 0 && c.fetched == []
  {
    UrlNormExamples.NormalizeExampleRoot(parse);
    UrlNormExamples.ExampleHost();
    c := new AsyncWebCrawler(parse, "https://example.com", 5);
  }

  /**
   * Fetching the seed's HTML page (whose content type, such as the tests'
   * "text/html; charset=utf-8", passes the gate), with links to two pages of
   * the domain and one of a subdomain, queues the two pages behind the seed.
   */
  method HtmlFetchExample(parse: string -> Url, outcomes: seq<Outcome>, contentType: string, page1: string, page2: string, page3: string)
    returns (c: AsyncWebCrawler)
    requires ParsesSeed(parse)
    requires parse(page1).netloc == "example.com" && parse(page2).netloc == "example.com"
    requires parse(page3).netloc == "community.example.com"
    requires DefaultRetries <= |outcomes|
    requires IsHtml(contentType)
    requires outcomes[0] == Response(200, "OK", contentType, [page1, page3, page2])
    ensures c.queue == [c.baseUrl, page1, page2] && c.baseUrl == "https://example.com/"
  {
    c := InitializationExample(parse);
    ExampleDomainHost(parse, page1);
    ExampleDomainHost(parse, page2);
    SubdomainHost(parse, page3);
    var links := [page1, page3, page2];
    FilterThree(parse, "example.com", {}, page1, page2, page3);
    HtmlPageLinks(c.baseUrl, outcomes, contentType, links);
    ghost var seed := c.baseUrl;
    var run := c.Fetch(c.baseUrl, outcomes, DefaultRetries);
    assert c.queue == [seed] + [page1, page2];
  }

  /** A fetch whose first attempt gets an HTML page hands on exactly that page's links. */
  lemma HtmlPageLinks(url: string, outcomes: seq<Outcome>, contentType: string, links: seq<string>)
    requires DefaultRetries <= |outcomes|
    requires IsHtml(contentType)
    requires outcomes[0] == Response(200, "OK", contentType, links)
    ensures EnqueuedLinks(Attempts(url, DefaultRetries, outcomes, 0).events) == links
  {
    AttemptSettles(url, DefaultRetries, outcomes, 0);
    SettleLinks(url, outcomes[0]);
  }

  /** A link whose host is "example.com" is in the domain "example.com". */
  lemma ExampleDomainHost(parse: string -> Url, link: string)
    requires parse(link).netloc == "example.com"
    ensures InDomain(parse, "example.com", link)
  {
    UrlNormExamples.LowerHost(parse(link).netloc);
  }

  /** A link on "community.example.com" is not. */
  lemma SubdomainHost(parse: string -> Url, link: string)
    requires parse(link).netloc == "community.example.com"
    ensures !InDomain(parse, "example.com", link)
  {
    assert |Lower(parse(link).netloc)| == 21;
  }

  /** Filtering two in-domain links around an out-of-domain one, on an empty frontier. */
  lemma FilterThree(parse: string -> Url, baseDomain: string, visited: set<string>, p1: string, p2: string, p3: string)
    requires visited == {}
    requires InDomain(parse, baseDomain, p1) && InDomain(parse, baseDomain, p2) && !InDomain(parse, baseDomain, p3)
    ensures Admitted(parse, baseDomain, visited, [p1, p3, p2]) == [p1, p2]
  {
    var links := [p1, p3, p2];
    AdmittedStep(parse, baseDomain, visited, links, 0);
    AdmittedStep(parse, baseDomain, visited, links, 1);
    AdmittedStep(parse, baseDomain, visited, links, 2);
    assert links[..0] == [] && links[..3] == links;
  }

  /**
   * A seed that answers 404 is fetched once: after one worker step the seed
   * is visited, nothing is queued, and `join` returns.
   */
  method NotFoundSeedExample(parse: string -> Url, outcomes: seq<Outcome>) returns (c: AsyncWebCrawler, drained: bool)
    requires ParsesSeed(parse)
    requires DefaultRetries <= |outcomes|
    requires outcomes[0] == Response(404, "Not Found", "", [])
    ensures drained && c.queue == [] && c.unfinished == 0
    ensures c.visited == {c.baseUrl} && c.fetched == [c.baseUrl]
  {
    c := InitializationExample(parse);
    AttemptSettles(c.baseUrl, DefaultRetries, outcomes, 0);
    SettleLinks(c.baseUrl, outcomes[0]);
    var step := c.WorkerIteration(outcomes, DefaultRetries);
    assert step.Fetched? && step.url == c.baseUrl;
    drained := c.Join();
  }
}

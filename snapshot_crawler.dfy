/**
 * The older, single-file `AsyncWebCrawler` of crawler.py: a set of URLs to
 * visit, popped one at a time and scheduled in batches of at most ten fetches;
 * a page is marked visited under its final (post-redirect) URL, and only when
 * it is HTML; the links of a new page are normalised and filtered before they
 * are added to the set.
 *
 * The transport is a parameter: `network(u)` is what fetching `u` ends in.
 * The fetches of a batch run one after another.
 */
module SnapshotCrawler {
  import opened Wrappers
  import opened UrlNorm
  import Fetching
  import Crawler

  /** What one `session.get(url)` ends in. */
  datatype Reply =
      /** A response: the URL it was finally served from, its status, its Content-Type header ("" when absent), and the links of its body, already joined with the final URL. */
    | Response(finalUrl: string, status: nat, contentType: string, links: seq<string>)
      /** `asyncio.TimeoutError`. */
    | TimedOut
      /** Any other exception, with its text. */
    | Failed(error: string)

  /** The lines `fetch` prints. */
  datatype Line =
    | Visiting(url: string)
    | Skipping(url: string)
    | RequestTimedOut(url: string)
      /** "Error fetching {url}: {e}" for the error `raise_for_status` raises on this status. */
    | StatusError(url: string, status: nat)
      /** "Error fetching {url}: {e}" for any other exception. */
    | ErrorFetching(url: string, error: string)

  /** The number of fetches `crawl` lets accumulate before it gathers them. */
  const BatchSize: nat := 10

  /** A reply that makes `fetch` mark its final URL visited and parse its links. */
  predicate IsNewPage(visited: set<string>, reply: Reply) {
    IsHtmlPage(reply) && reply.finalUrl !in visited
  }

  /** What `fetch(url)` prints for a reply, given the visited set it starts from. */
  function Printed(url: string, visited: set<string>, reply: Reply): (r: seq<Line>)
    ensures |r| <= 1
    ensures r == [] <==> IsHtmlPage(reply) && reply.finalUrl in visited
  {
    match reply
    case Response(finalUrl, status, contentType, _) =>
      if Fetching.IsErrorStatus(status) then [StatusError(url, status)]
      else if Fetching.IsHtml(contentType) then (if finalUrl !in visited then [Visiting(finalUrl)] else [])
      else [Skipping(finalUrl)]
    case TimedOut => [RequestTimedOut(url)]
    case Failed(e) => [ErrorFetching(url, e)]
  }

  /** The URLs `parse_links` adds: each link normalised, kept when it is in the domain and not visited. */
  function LinksToAdd(parse: string -> Url, baseDomain: string, visited: set<string>, links: seq<string>): (r: set<string>)
    ensures forall u :: u in r ==> StartsWith(u, "https://") && Crawler.InDomain(parse, baseDomain, u) && u !in visited
  {
    if links == [] then {}
    else
      var u := NormalizeUrl(parse, links[|links| - 1]);
      LinksToAdd(parse, baseDomain, visited, links[..|links| - 1]) +
        (if Crawler.InDomain(parse, baseDomain, u) && u !in visited then {u} else {})
  }

  /** Exactly the normalised links that are in the domain and not visited are added. */
  lemma {:induction false} LinksToAddMembers(parse: string -> Url, baseDomain: string, visited: set<string>, links: seq<string>, u: string)
    ensures u in LinksToAdd(parse, baseDomain, visited, links) <==>
              Crawler.InDomain(parse, baseDomain, u) && u !in visited &&
              exists i :: 0 <= i < |links| && NormalizeUrl(parse, links[i]) == u
  {
    if links != [] {
      var init := links[..|links| - 1];
      LinksToAddMembers(parse, baseDomain, visited, init, u);
      if exists i :: 0 <= i < |links| && NormalizeUrl(parse, links[i]) == u {
        var i :| 0 <= i < |links| && NormalizeUrl(parse, links[i]) == u;
        if i < |links| - 1 {
          assert init[i] == links[i];
        }
      }
      if exists i :: 0 <= i < |init| && NormalizeUrl(parse, init[i]) == u {
        var i :| 0 <= i < |init| && NormalizeUrl(parse, init[i]) == u;
        assert links[i] == init[i];
      }
    }
  }

  /** Filtering one more link adds at most that link's normal form. */
  lemma LinksToAddStep(parse: string -> Url, baseDomain: string, visited: set<string>, links: seq<string>, i: nat)
    requires i < |links|
    ensures var u := NormalizeUrl(parse, links[i]);
            LinksToAdd(parse, baseDomain, visited, links[..i + 1]) ==
              LinksToAdd(parse, baseDomain, visited, links[..i]) + (if Crawler.InDomain(parse, baseDomain, u) && u !in visited then {u} else {})
  {
    assert links[..i + 1][..i] == links[..i];
  }

  /** A reply that passed `raise_for_status` and is HTML. */
  predicate IsHtmlPage(reply: Reply) {
    reply.Response? && !Fetching.IsErrorStatus(reply.status) && Fetching.IsHtml(reply.contentType)
  }

  /** The final URLs of the HTML pages some URLs answered with. */
  function HtmlPageUrls(network: string -> Reply, urls: seq<string>): set<string> {
    if urls == [] then {}
    else
      var reply := network(urls[|urls| - 1]);
      HtmlPageUrls(network, urls[..|urls| - 1]) + (if IsHtmlPage(reply) then {reply.finalUrl} else {})
  }

  /** A URL is among them exactly when one of the URLs got an HTML page from it. */
  lemma {:induction false} HtmlPageUrlsMembers(network: string -> Reply, urls: seq<string>, u: string)
    ensures u in HtmlPageUrls(network, urls) <==>
              exists i :: 0 <= i < |urls| && IsHtmlPage(network(urls[i])) && network(urls[i]).finalUrl == u
  {
    if urls != [] {
      var init := urls[..|urls| - 1];
      HtmlPageUrlsMembers(network, init, u);
      if exists i :: 0 <= i < |urls| && IsHtmlPage(network(urls[i])) && network(urls[i]).finalUrl == u {
        var i :| 0 <= i < |urls| && IsHtmlPage(network(urls[i])) && network(urls[i]).finalUrl == u;
        if i < |urls| - 1 {
          assert init[i] == urls[i];
        }
      }
      if exists i :: 0 <= i < |init| && IsHtmlPage(network(init[i])) && network(init[i]).finalUrl == u {
        var i :| 0 <= i < |init| && IsHtmlPage(network(init[i])) && network(init[i]).finalUrl == u;
        assert urls[i] == init[i];
      }
    }
  }

  lemma {:induction false} HtmlPageUrlsAppend(network: string -> Reply, a: seq<string>, b: seq<string>)
    ensures HtmlPageUrls(network, a + b) == HtmlPageUrls(network, a) + HtmlPageUrls(network, b)
    decreases |b|
  {
    if b == [] {
      assert a + b == a;
    } else {
      var k := |b| - 1;
      assert (a + b)[..|a + b| - 1] == a + b[..k] && (a + b)[|a + b| - 1] == b[k];
      HtmlPageUrlsAppend(network, a, b[..k]);
    }
  }

  /** The crawler's two sets: the visited URLs and the URLs to visit. */
  datatype Sets = Sets(visited: set<string>, toVisit: set<string>)

  /** What `fetch` does to the two sets for a reply. */
  function FetchEffect(parse: string -> Url, baseDomain: string, s: Sets, reply: Reply): Sets {
    if IsNewPage(s.visited, reply) then
      var visited := s.visited + {reply.finalUrl};
      Sets(visited, s.toVisit + LinksToAdd(parse, baseDomain, visited, reply.links))
    else s
  }

  /** The two sets after the fetches of a batch have run, in order, from `s`. */
  function RunBatch(parse: string -> Url, baseDomain: string, network: string -> Reply, s: Sets, tasks: seq<string>): (r: Sets)
    ensures s.visited <= r.visited && s.toVisit <= r.toVisit
  {
    if tasks == [] then s
    else
      var k := |tasks| - 1;
      FetchEffect(parse, baseDomain, RunBatch(parse, baseDomain, network, s, tasks[..k]), network(tasks[k]))
  }

  /** What the fetches of a batch print, in order: each prints for its reply, against the visited set of its turn. */
  function BatchLines(parse: string -> Url, baseDomain: string, network: string -> Reply, s: Sets, tasks: seq<string>): (r: seq<Line>)
    ensures |r| <= |tasks|
  {
    if tasks == [] then []
    else
      var k := |tasks| - 1;
      BatchLines(parse, baseDomain, network, s, tasks[..k]) +
        Printed(tasks[k], RunBatch(parse, baseDomain, network, s, tasks[..k]).visited, network(tasks[k]))
  }

  lemma BatchStep(parse: string -> Url, baseDomain: string, network: string -> Reply, s: Sets, tasks: seq<string>, k: nat)
    requires k < |tasks|
    ensures RunBatch(parse, baseDomain, network, s, tasks[..k + 1]) ==
              FetchEffect(parse, baseDomain, RunBatch(parse, baseDomain, network, s, tasks[..k]), network(tasks[k]))
    ensures BatchLines(parse, baseDomain, network, s, tasks[..k + 1]) ==
              BatchLines(parse, baseDomain, network, s, tasks[..k]) +
                Printed(tasks[k], RunBatch(parse, baseDomain, network, s, tasks[..k]).visited, network(tasks[k]))
  {
    assert tasks[..k + 1][..k] == tasks[..k];
  }

  /** A batch marks visited exactly the final URLs of its HTML pages. */
  lemma {:induction false} BatchVisits(parse: string -> Url, baseDomain: string, network: string -> Reply, s: Sets, tasks: seq<string>)
    ensures RunBatch(parse, baseDomain, network, s, tasks).visited == s.visited + HtmlPageUrls(network, tasks)
  {
    if tasks != [] {
      BatchVisits(parse, baseDomain, network, s, tasks[..|tasks| - 1]);
    }
  }

  /** The normal form of one of the links. */
  predicate LinkOf(parse: string -> Url, links: seq<string>, u: string) {
    exists j :: 0 <= j < |links| && NormalizeUrl(parse, links[j]) == u
  }

  /**
   * A batch adds to the set only normalised links of its HTML pages that are
   * in the domain and were not visited before it.
   */
  lemma {:induction false} BatchAdds(parse: string -> Url, baseDomain: string, network: string -> Reply, s: Sets, tasks: seq<string>, u: string)
    requires u in RunBatch(parse, baseDomain, network, s, tasks).toVisit && u !in s.toVisit
    ensures StartsWith(u, "https://") && Crawler.InDomain(parse, baseDomain, u) && u !in s.visited
    ensures exists k :: 0 <= k < |tasks| && IsHtmlPage(network(tasks[k])) && LinkOf(parse, network(tasks[k]).links, u)
  {
    var k := |tasks| - 1;
    var init := tasks[..k];
    var before := RunBatch(parse, baseDomain, network, s, init);
    var reply := network(tasks[k]);
    if u in before.toVisit {
      BatchAdds(parse, baseDomain, network, s, init, u);
      var i :| 0 <= i < |init| && IsHtmlPage(network(init[i])) && LinkOf(parse, network(init[i]).links, u);
      assert tasks[i] == init[i];
    } else {
      var visited := before.visited + {reply.finalUrl};
      assert IsNewPage(before.visited, reply) && u in LinksToAdd(parse, baseDomain, visited, reply.links);
      LinksToAddMembers(parse, baseDomain, visited, reply.links, u);
    }
  }

  /** A batch none of whose replies is an HTML page prints one line per fetch. */
  lemma {:induction false} BatchLinesWithoutPages(parse: string -> Url, baseDomain: string, network: string -> Reply, s: Sets, tasks: seq<string>)
    requires forall k :: 0 <= k < |tasks| ==> !IsHtmlPage(network(tasks[k]))
    ensures |BatchLines(parse, baseDomain, network, s, tasks)| == |tasks|
  {
    if tasks != [] {
      var k := |tasks| - 1;
      assert forall i :: 0 <= i < k ==> tasks[..k][i] == tasks[i];
      BatchLinesWithoutPages(parse, baseDomain, network, s, tasks[..k]);
    }
  }

  /**
   * Where `crawl` stands between two pops: the two sets, the fetches scheduled
   * since the last gather, the lines printed, and the batches gathered.
   */
  datatype Progress = Progress(sets: Sets, tasks: seq<string>, lines: seq<Line>, batches: seq<seq<string>>)

  /** Before the first pop. */
  function Start(s: Sets): Progress {
    Progress(s, [], [], [])
  }

  /** `asyncio.gather` over the scheduled fetches, which leaves none scheduled. */
  function Flush(parse: string -> Url, baseDomain: string, network: string -> Reply, p: Progress): Progress {
    Progress(RunBatch(parse, baseDomain, network, p.sets, p.tasks), [],
             p.lines + BatchLines(parse, baseDomain, network, p.sets, p.tasks), p.batches + [p.tasks])
  }

  /**
   * One pass of `crawl`'s loop that pops `url`: it is scheduled when it is not
   * visited and in the domain, and the scheduled fetches are gathered once
   * there are ten of them or the set has run empty.
   */
  function PopStep(parse: string -> Url, baseDomain: string, network: string -> Reply, p: Progress, url: string): Progress
    requires url in p.sets.toVisit
  {
    var s := Sets(p.sets.visited, p.sets.toVisit - {url});
    var tasks := if url !in s.visited && Crawler.InDomain(parse, baseDomain, url) then p.tasks + [url] else p.tasks;
    var q := Progress(s, tasks, p.lines, p.batches);
    if |tasks| >= BatchSize || s.toVisit == {} then Flush(parse, baseDomain, network, q) else q
  }

  /** The `if tasks:` after the loop. */
  function Finish(parse: string -> Url, baseDomain: string, network: string -> Reply, p: Progress): Progress {
    if p.tasks == [] then p else Flush(parse, baseDomain, network, p)
  }

  /**
   * The loop of `crawl` from `p0` when it pops `pops`, in order; `None` when
   * one of them is not in the set at its turn.
   */
  function Replay(parse: string -> Url, baseDomain: string, network: string -> Reply, p0: Progress, pops: seq<string>): Option<Progress> {
    if pops == [] then Some(p0)
    else
      match Replay(parse, baseDomain, network, p0, pops[..|pops| - 1])
      case None => None
      case Some(p) =>
        var url := pops[|pops| - 1];
        if url in p.sets.toVisit then Some(PopStep(parse, baseDomain, network, p, url)) else None
  }

  lemma ReplayStep(parse: string -> Url, baseDomain: string, network: string -> Reply, p0: Progress, pops: seq<string>, p: Progress, url: string)
    requires Replay(parse, baseDomain, network, p0, pops) == Some(p) && url in p.sets.toVisit
    ensures Replay(parse, baseDomain, network, p0, pops + [url]) == Some(PopStep(parse, baseDomain, network, p, url))
  {
    assert (pops + [url])[..|pops|] == pops;
  }

  /** The visited set at each pop. */
  function PopTimeVisited(parse: string -> Url, baseDomain: string, network: string -> Reply, p0: Progress, pops: seq<string>): (r: seq<set<string>>)
    ensures |r| == |pops|
  {
    if pops == [] then []
    else
      var init := pops[..|pops| - 1];
      PopTimeVisited(parse, baseDomain, network, p0, init) +
        [match Replay(parse, baseDomain, network, p0, init) case Some(p) => p.sets.visited case None => {}]
  }

  /**
   * The URLs `crawl` schedules from the URLs it popped, given the visited set
   * at each pop: those not visited at the time and in the domain, in order.
   */
  function Scheduled(parse: string -> Url, baseDomain: string, pops: seq<string>, seen: seq<set<string>>): (r: seq<string>)
    requires |seen| == |pops|
    ensures |r| <= |pops|
  {
    if pops == [] then []
    else
      var k := |pops| - 1;
      Scheduled(parse, baseDomain, pops[..k], seen[..k]) +
        (if pops[k] !in seen[k] && Crawler.InDomain(parse, baseDomain, pops[k]) then [pops[k]] else [])
  }

  /** A URL is scheduled exactly when some pop of it found it unvisited and in the domain. */
  lemma {:induction false} ScheduledMembers(parse: string -> Url, baseDomain: string, pops: seq<string>, seen: seq<set<string>>, u: string)
    requires |seen| == |pops|
    ensures u in Scheduled(parse, baseDomain, pops, seen) <==>
              exists i :: 0 <= i < |pops| && pops[i] == u && u !in seen[i] && Crawler.InDomain(parse, baseDomain, u)
  {
    if pops != [] {
      var k := |pops| - 1;
      ScheduledMembers(parse, baseDomain, pops[..k], seen[..k], u);
      if exists i :: 0 <= i < |pops| && pops[i] == u && u !in seen[i] && Crawler.InDomain(parse, baseDomain, u) {
        var i :| 0 <= i < |pops| && pops[i] == u && u !in seen[i] && Crawler.InDomain(parse, baseDomain, u);
        if i < k {
          assert pops[..k][i] == pops[i] && seen[..k][i] == seen[i];
        }
      }
      if exists i :: 0 <= i < k && pops[..k][i] == u && u !in seen[..k][i] && Crawler.InDomain(parse, baseDomain, u) {
        var i :| 0 <= i < k && pops[..k][i] == u && u !in seen[..k][i] && Crawler.InDomain(parse, baseDomain, u);
        assert pops[i] == u && seen[i] == seen[..k][i];
      }
    }
  }

  /** One more pop schedules at most the popped URL. */
  lemma ScheduledStep(parse: string -> Url, baseDomain: string, pops: seq<string>, seen: seq<set<string>>, u: string, vis: set<string>)
    requires |seen| == |pops|
    ensures Scheduled(parse, baseDomain, pops + [u], seen + [vis]) ==
              Scheduled(parse, baseDomain, pops, seen) + (if u !in vis && Crawler.InDomain(parse, baseDomain, u) then [u] else [])
  {
    assert (pops + [u])[..|pops|] == pops && (seen + [vis])[..|pops|] == seen;
  }

  /**
   * A pop schedules its URL exactly when it is not visited and is in the
   * domain; it gathers exactly when that makes ten scheduled fetches or the
   * set has run empty, and the batch is then the scheduled fetches, run in
   * order; otherwise only the popped URL leaves the set.
   */
  lemma PopStepGathers(parse: string -> Url, baseDomain: string, network: string -> Reply, p: Progress, url: string)
    requires url in p.sets.toVisit
    ensures var tasks := if url !in p.sets.visited && Crawler.InDomain(parse, baseDomain, url) then p.tasks + [url] else p.tasks;
            var s := Sets(p.sets.visited, p.sets.toVisit - {url});
            var r := PopStep(parse, baseDomain, network, p, url);
            && (|r.batches| == |p.batches| + 1 <==> |tasks| >= BatchSize || p.sets.toVisit == {url})
            && (|r.batches| == |p.batches| ==> r == Progress(s, tasks, p.lines, p.batches))
            && (|r.batches| == |p.batches| + 1 ==>
                  && r.batches == p.batches + [tasks] && r.tasks == []
                  && r.sets == RunBatch(parse, baseDomain, network, s, tasks)
                  && r.lines == p.lines + BatchLines(parse, baseDomain, network, s, tasks))
  {
    assert p.sets.toVisit - {url} == {} <==> p.sets.toVisit == {url};
  }

  /** The batches laid end to end. */
  function Concat(batches: seq<seq<string>>): (r: seq<string>)
    ensures batches == [] ==> r == []
  {
    if batches == [] then [] else Concat(batches[..|batches| - 1]) + batches[|batches| - 1]
  }

  lemma ConcatAppend(batches: seq<seq<string>>, tasks: seq<string>)
    ensures Concat(batches + [tasks]) == Concat(batches) + tasks
  {
    assert (batches + [tasks])[..|batches|] == batches;
  }

  /** A pop adds to the scheduled fetches, gathered or not, at most the popped URL. */
  lemma PopStepSchedules(parse: string -> Url, baseDomain: string, network: string -> Reply, p: Progress, url: string)
    requires url in p.sets.toVisit
    ensures var r := PopStep(parse, baseDomain, network, p, url);
            Concat(r.batches) + r.tasks ==
              Concat(p.batches) + p.tasks + (if url !in p.sets.visited && Crawler.InDomain(parse, baseDomain, url) then [url] else [])
  {
    var tasks := if url !in p.sets.visited && Crawler.InDomain(parse, baseDomain, url) then p.tasks + [url] else p.tasks;
    ConcatAppend(p.batches, tasks);
    assert Concat(p.batches) + tasks + [] == Concat(p.batches) + p.tasks + (if url !in p.sets.visited && Crawler.InDomain(parse, baseDomain, url) then [url] else []);
  }

  /** Each URL is in the domain and not in `visited`. */
  predicate FreshInDomain(parse: string -> Url, baseDomain: string, visited: set<string>, urls: seq<string>) {
    forall i :: 0 <= i < |urls| ==> Crawler.InDomain(parse, baseDomain, urls[i]) && urls[i] !in visited
  }

  /** Scheduling one more URL that is in the domain and not visited keeps the schedule fresh. */
  lemma FreshInDomainStep(parse: string -> Url, baseDomain: string, visited: set<string>, urls: seq<string>, u: string)
    requires FreshInDomain(parse, baseDomain, visited, urls)
    requires Crawler.InDomain(parse, baseDomain, u) && u !in visited
    ensures FreshInDomain(parse, baseDomain, visited, urls + [u])
  {
  }

  /** No URL occurs twice. */
  predicate Distinct(s: seq<string>) {
    forall i, j :: 0 <= i < j < |s| ==> s[i] != s[j]
  }

  /** A batch `crawl` gathers: at most ten fetches, none of them twice. */
  predicate IsBatch(b: seq<string>) {
    |b| <= BatchSize && Distinct(b)
  }

  predicate AllBatches(batches: seq<seq<string>>) {
    forall b :: b in batches ==> IsBatch(b)
  }

  /**
   * What holds of `crawl` between two pops, from a start `p0` with nothing
   * scheduled: fewer than ten distinct fetches are scheduled, none of them
   * still in the set, and none at all once the set is empty; every batch
   * holds at most ten distinct URLs; every URL scheduled is in the domain and
   * was not visited at the start; and the visited set has grown by exactly
   * the final URLs of the HTML pages of the gathered fetches.
   */
  predicate Consistent(parse: string -> Url, baseDomain: string, network: string -> Reply, p0: Progress, p: Progress) {
    && |p.tasks| < BatchSize && Distinct(p.tasks)
    && (forall t :: t in p.tasks ==> t !in p.sets.toVisit)
    && (p.sets.toVisit == {} ==> p.tasks == [])
    && AllBatches(p.batches)
    && FreshInDomain(parse, baseDomain, p0.sets.visited, Concat(p.batches) + p.tasks)
    && p.sets.visited == p0.sets.visited + HtmlPageUrls(network, Concat(p.batches))
  }

  /** Gathering keeps the batches well formed and marks visited the HTML pages of the batch. */
  lemma FlushKeeps(parse: string -> Url, baseDomain: string, network: string -> Reply, p0: Progress, q: Progress)
    requires |q.tasks| <= BatchSize && Distinct(q.tasks) && AllBatches(q.batches)
    requires FreshInDomain(parse, baseDomain, p0.sets.visited, Concat(q.batches) + q.tasks)
    requires q.sets.visited == p0.sets.visited + HtmlPageUrls(network, Concat(q.batches))
    ensures var r := Flush(parse, baseDomain, network, q);
            && AllBatches(r.batches)
            && FreshInDomain(parse, baseDomain, p0.sets.visited, Concat(r.batches) + r.tasks)
            && r.sets.visited == p0.sets.visited + HtmlPageUrls(network, Concat(r.batches))
  {
    var r := Flush(parse, baseDomain, network, q);
    ConcatAppend(q.batches, q.tasks);
    assert Concat(r.batches) + r.tasks == Concat(q.batches) + q.tasks;
    BatchVisits(parse, baseDomain, network, q.sets, q.tasks);
    HtmlPageUrlsAppend(network, Concat(q.batches), q.tasks);
  }

  /** A pop keeps `Consistent`. */
  lemma PopStepKeeps(parse: string -> Url, baseDomain: string, network: string -> Reply, p0: Progress, p: Progress, url: string)
    requires Consistent(parse, baseDomain, network, p0, p) && url in p.sets.toVisit
    ensures Consistent(parse, baseDomain, network, p0, PopStep(parse, baseDomain, network, p, url))
  {
    var s := Sets(p.sets.visited, p.sets.toVisit - {url});
    var tasks := p.tasks;
    if url !in s.visited && Crawler.InDomain(parse, baseDomain, url) {
      assert url !in p0.sets.visited;
      FreshInDomainStep(parse, baseDomain, p0.sets.visited, Concat(p.batches) + p.tasks, url);
      assert Concat(p.batches) + p.tasks + [url] == Concat(p.batches) + (p.tasks + [url]);
      tasks := p.tasks + [url];
    }
    var q := Progress(s, tasks, p.lines, p.batches);
    if |tasks| >= BatchSize || s.toVisit == {} {
      FlushKeeps(parse, baseDomain, network, p0, q);
    }
  }

  /** The replayed loop keeps `Consistent`. */
  lemma {:induction false} ReplayKeeps(parse: string -> Url, baseDomain: string, network: string -> Reply, p0: Progress, pops: seq<string>)
    requires p0.tasks == [] && p0.batches == []
    requires Replay(parse, baseDomain, network, p0, pops).Some?
    ensures Consistent(parse, baseDomain, network, p0, Replay(parse, baseDomain, network, p0, pops).value)
  {
    if pops != [] {
      var init := pops[..|pops| - 1];
      ReplayKeeps(parse, baseDomain, network, p0, init);
      PopStepKeeps(parse, baseDomain, network, p0, Replay(parse, baseDomain, network, p0, init).value, pops[|pops| - 1]);
    }
  }

  /**
   * The fetches scheduled over a replayed loop, gathered or not, are exactly
   * the pops that found their URL unvisited and in the domain, in order.
   */
  lemma {:induction false} ReplaySchedules(parse: string -> Url, baseDomain: string, network: string -> Reply, p0: Progress, pops: seq<string>)
    requires p0.tasks == [] && p0.batches == []
    requires Replay(parse, baseDomain, network, p0, pops).Some?
    ensures var p := Replay(parse, baseDomain, network, p0, pops).value;
            Concat(p.batches) + p.tasks == Scheduled(parse, baseDomain, pops, PopTimeVisited(parse, baseDomain, network, p0, pops))
  {
    if pops != [] {
      var k := |pops| - 1;
      var init := pops[..k];
      var p := Replay(parse, baseDomain, network, p0, init).value;
      ReplaySchedules(parse, baseDomain, network, p0, init);
      PopStepSchedules(parse, baseDomain, network, p, pops[k]);
      ScheduledStep(parse, baseDomain, init, PopTimeVisited(parse, baseDomain, network, p0, init), pops[k], p.sets.visited);
      assert init + [pops[k]] == pops;
    }
  }

  /**
   * After the loop: what is left is gathered, and once the set has drained
   * nothing is left. The batches stay well formed, none holds a URL visited
   * at the start or out of the domain, and the visited set has grown by
   * exactly the final URLs of the HTML pages of every gathered fetch.
   */
  lemma FinishKeeps(parse: string -> Url, baseDomain: string, network: string -> Reply, p0: Progress, p: Progress)
    requires Consistent(parse, baseDomain, network, p0, p)
    ensures p.sets.toVisit == {} ==> Finish(parse, baseDomain, network, p) == p
    ensures var r := Finish(parse, baseDomain, network, p);
            && r.tasks == [] && Concat(r.batches) == Concat(p.batches) + p.tasks
            && AllBatches(r.batches)
            && FreshInDomain(parse, baseDomain, p0.sets.visited, Concat(r.batches))
            && r.sets.visited == p0.sets.visited + HtmlPageUrls(network, Concat(r.batches))
  {
    if p.tasks != [] {
      FlushKeeps(parse, baseDomain, network, p0, p);
      assert Concat(Finish(parse, baseDomain, network, p).batches) + [] == Concat(Finish(parse, baseDomain, network, p).batches);
    } else {
      assert Concat(p.batches) + p.tasks == Concat(p.batches);
    }
  }

  class AsyncWebCrawler {
    /** `urlparse`, which is not part of this model. */
    const parse: string -> Url
    const baseUrl: string
    const baseDomain: string

    var visited: set<string>
    var urlsToVisit: set<string>

    /** Every URL waiting to be visited starts with "https://", and it is the seed or in the domain. */
    ghost predicate Valid()
      reads this
    {
      forall u :: u in urlsToVisit ==> StartsWith(u, "https://") && (u == baseUrl || Crawler.InDomain(parse, baseDomain, u))
    }

    /** `__init__`: the set holds only the normalised seed; the domain is the raw seed's host, lowered. */
    constructor (parse: string -> Url, baseUrl: string)
      ensures this.parse == parse
      ensures this.baseUrl == UrlNorm.NormalizeUrl(parse, baseUrl)
      ensures baseDomain == Lower(parse(baseUrl).netloc)
      ensures visited == {} && urlsToVisit == {this.baseUrl}
      ensures Valid()
    {
      this.parse := parse;
      var normalized := UrlNorm.NormalizeUrl(parse, baseUrl);
      this.baseUrl := normalized;
      baseDomain := Lower(parse(baseUrl).netloc);
      visited := {};
      urlsToVisit := {normalized};
    }

    /** The `normalize_url` method, which computes what `normalize_url` of crawler/utils.py does. */
    method NormalizeUrl(url: string) returns (r: string)
      ensures r == UrlNorm.NormalizeUrl(parse, url)
    {
      var parsed := parse(url);
      var netloc := Lower(parsed.netloc);
      var path := parsed.path;
      if path == "" {
        path := "/";
      }
      r := Render(Url("https", netloc, path, "", "", ""));
    }

    /** `parse_links` on the links of a page: adds each normalised link that is in the domain and not visited. */
    method ParseLinks(links: seq<string>)
      requires Valid()
      modifies this
      ensures urlsToVisit == old(urlsToVisit) + LinksToAdd(parse, baseDomain, visited, links)
      ensures visited == old(visited)
      ensures Valid()
    {
      for i := 0 to |links|
        invariant urlsToVisit == old(urlsToVisit) + LinksToAdd(parse, baseDomain, visited, links[..i])
        invariant visited == old(visited)
        invariant Valid()
      {
        LinksToAddStep(parse, baseDomain, visited, links, i);
        var fullUrl := NormalizeUrl(links[i]);
        if Lower(parse(fullUrl).netloc) == baseDomain && fullUrl !in visited {
          urlsToVisit := urlsToVisit + {fullUrl};
        }
      }
      assert links[..|links|] == links;
    }

    /**
     * `fetch(url)`: every exception is caught and printed. A new HTML page is
     * marked visited under its final URL before its links are parsed; a page
     * already visited under that URL is left alone; anything else only prints.
     */
    method Fetch(url: string, reply: Reply) returns (lines: seq<Line>)
      requires Valid()
      modifies this
      ensures lines == Printed(url, old(visited), reply)
      ensures visited == if IsNewPage(old(visited), reply) then old(visited) + {reply.finalUrl} else old(visited)
      ensures urlsToVisit ==
                if IsNewPage(old(visited), reply) then old(urlsToVisit) + LinksToAdd(parse, baseDomain, visited, reply.links)
                else old(urlsToVisit)
      ensures Valid()
    {
      match reply {
      case Response(finalUrl, status, contentType, links) =>
        if Fetching.IsErrorStatus(status) {
          lines := [StatusError(url, status)];
        } else if Fetching.IsHtml(contentType) {
          if finalUrl !in visited {
            lines := [Visiting(finalUrl)];
            visited := visited + {finalUrl};
            ParseLinks(links);
          } else {
            lines := [];
          }
        } else {
          lines := [Skipping(finalUrl)];
        }
      case TimedOut =>
        lines := [RequestTimedOut(url)];
      case Failed(e) =>
        lines := [ErrorFetching(url, e)];
      }
    }

    /**
     * `asyncio.gather` over a batch of fetches, run in order: every fetch of
     * the batch runs, the visited set gains exactly the final URLs of the
     * batch's HTML pages, and each fetch prints its own line.
     */
    method Gather(tasks: seq<string>, network: string -> Reply) returns (lines: seq<Line>)
      requires Valid()
      modifies this
      ensures Sets(visited, urlsToVisit) == RunBatch(parse, baseDomain, network, Sets(old(visited), old(urlsToVisit)), tasks)
      ensures lines == BatchLines(parse, baseDomain, network, Sets(old(visited), old(urlsToVisit)), tasks)
      ensures visited == old(visited) + HtmlPageUrls(network, tasks)
      ensures Valid()
    {
      ghost var s0 := Sets(visited, urlsToVisit);
      lines := [];
      for k := 0 to |tasks|
        invariant Sets(visited, urlsToVisit) == RunBatch(parse, baseDomain, network, s0, tasks[..k])
        invariant lines == BatchLines(parse, baseDomain, network, s0, tasks[..k])
        invariant Valid()
      {
        BatchStep(parse, baseDomain, network, s0, tasks, k);
        var printed := Fetch(tasks[k], network(tasks[k]));
        lines := lines + printed;
      }
      assert tasks[..|tasks|] == tasks;
      BatchVisits(parse, baseDomain, network, s0, tasks);
    }

    /**
     * `crawl`: pops URLs from the set, schedules each one that is not visited
     * and is in the domain, gathers the scheduled fetches once ten have
     * accumulated or the set has run empty, and gathers what is left at the
     * end. At most `fuel` URLs are popped. `pops` are the URLs popped, in
     * order; `batches` the batches gathered.
     */
    method Crawl(network: string -> Reply, fuel: nat) returns (lines: seq<Line>, batches: seq<seq<string>>, drained: bool, ghost pops: seq<string>)
      requires Valid()
      modifies this
      ensures |pops| <= fuel
      ensures Replay(parse, baseDomain, network, Start(Sets(old(visited), old(urlsToVisit))), pops).Some?
      ensures var p := Replay(parse, baseDomain, network, Start(Sets(old(visited), old(urlsToVisit))), pops).value;
              && (|pops| < fuel ==> p.sets.toVisit == {})
              && Finish(parse, baseDomain, network, p) == Progress(Sets(visited, urlsToVisit), [], lines, batches)
      ensures drained <==> urlsToVisit == {}
      ensures Concat(batches) ==
                Scheduled(parse, baseDomain, pops, PopTimeVisited(parse, baseDomain, network, Start(Sets(old(visited), old(urlsToVisit))), pops))
      ensures AllBatches(batches) && FreshInDomain(parse, baseDomain, old(visited), Concat(batches))
      ensures visited == old(visited) + HtmlPageUrls(network, Concat(batches))
      ensures Valid()
    {
      ghost var p0 := Start(Sets(visited, urlsToVisit));
      lines, batches, pops := [], [], [];
      var tasks: seq<string> := [];
      var popped := 0;
      while urlsToVisit != {} && popped < fuel
        invariant Valid()
        invariant |pops| == popped <= fuel
        invariant Replay(parse, baseDomain, network, p0, pops) == Some(Progress(Sets(visited, urlsToVisit), tasks, lines, batches))
        decreases fuel - popped
      {
        var url :| url in urlsToVisit;
        ReplayStep(parse, baseDomain, network, p0, pops, Progress(Sets(visited, urlsToVisit), tasks, lines, batches), url);
        urlsToVisit := urlsToVisit - {url};
        if url !in visited && Lower(parse(url).netloc) == baseDomain {
          tasks := tasks + [url];
        }
        if |tasks| >= BatchSize || urlsToVisit == {} {
          var printed := Gather(tasks, network);
          lines := lines + printed;
          batches := batches + [tasks];
          tasks := [];
        }
        pops := pops + [url];
        popped := popped + 1;
      }
      ReplayKeeps(parse, baseDomain, network, p0, pops);
      ReplaySchedules(parse, baseDomain, network, p0, pops);
      FinishKeeps(parse, baseDomain, network, p0, Progress(Sets(visited, urlsToVisit), tasks, lines, batches));
      if tasks != [] {
        var printed := Gather(tasks, network);
        lines := lines + printed;
        batches := batches + [tasks];
      }
      drained := urlsToVisit == {};
    }
  }
}

/**
 * The frontier of `AsyncWebCrawler` in crawler/crawler.py: the set of visited
 * URLs, the FIFO queue of URLs to visit with asyncio's count of unfinished
 * tasks, and the worker step that takes a URL, claims it under the lock,
 * fetches it and calls `task_done`.
 *
 * Every section the crawler runs under `self.lock` is one atomic step here,
 * and the workers' steps are interleaved one at a time.
 */
module Crawler {
  import opened Wrappers
  import opened UrlNorm
  import Fetching

  /** The domain filter of `enqueue_urls`: the link's network location, lowered, is exactly the crawl's domain. */
  predicate InDomain(parse: string -> Url, baseDomain: string, link: string) {
    Lower(parse(link).netloc) == baseDomain
  }

  /** The domain filter ignores letter case in the link's host and nothing else. */
  lemma InDomainIgnoresCase(parse: string -> Url, baseDomain: string, link: string)
    requires IsLowerCase(baseDomain)
    ensures InDomain(parse, baseDomain, link) <==> EqualIgnoringCase(parse(link).netloc, baseDomain)
  {
    LowerFixpoint(baseDomain);
    LowerEqualIffEqualIgnoringCase(parse(link).netloc, baseDomain);
  }

  /** The match is exact: a subdomain, or a host with a port, is out of the domain. */
  lemma LongerHostOutOfDomain(parse: string -> Url, baseDomain: string, link: string, prefix: string, suffix: string)
    requires parse(link).netloc == prefix + baseDomain + suffix && prefix + suffix != ""
    ensures !InDomain(parse, baseDomain, link)
  {
    assert |Lower(parse(link).netloc)| == |prefix| + |baseDomain| + |suffix|;
  }

  /**
   * The seed passes its own domain filter, given that parsing the normalised
   * seed gives back its lowered host, as `urlparse` does.
   */
  lemma SeedInDomain(parse: string -> Url, seed: string)
    requires parse(NormalizeUrl(parse, seed)).netloc == Lower(parse(seed).netloc)
    ensures InDomain(parse, Lower(parse(seed).netloc), NormalizeUrl(parse, seed))
  {
    LowerIdempotent(parse(seed).netloc);
  }

  /** A link `enqueue_urls` puts on the queue: in the domain and not yet visited. */
  predicate Admits(parse: string -> Url, baseDomain: string, visited: set<string>, link: string) {
    InDomain(parse, baseDomain, link) && link !in visited
  }

  /** The links `enqueue_urls(links)` puts on the queue, in their order. */
  function Admitted(parse: string -> Url, baseDomain: string, visited: set<string>, links: seq<string>): (r: seq<string>)
    ensures |r| <= |links|
  {
    if links == [] then []
    else
      var init, last := links[..|links| - 1], links[|links| - 1];
      Admitted(parse, baseDomain, visited, init) + (if Admits(parse, baseDomain, visited, last) then [last] else [])
  }

  /**
   * `enqueue_urls` puts every admitted link as often as it occurs among the
   * links, and nothing else: links already on the queue are not filtered out.
   */
  lemma {:induction false} AdmittedCounts(parse: string -> Url, baseDomain: string, visited: set<string>, links: seq<string>)
    ensures forall l :: multiset(Admitted(parse, baseDomain, visited, links))[l] ==
                          if Admits(parse, baseDomain, visited, l) then multiset(links)[l] else 0
  {
    if links != [] {
      var init, last := links[..|links| - 1], links[|links| - 1];
      assert links == init + [last];
      AdmittedCounts(parse, baseDomain, visited, init);
    }
  }

  /** A link is put exactly when it is among the links, in the domain, and not visited. */
  lemma AdmittedMembers(parse: string -> Url, baseDomain: string, visited: set<string>, links: seq<string>)
    ensures forall l :: l in Admitted(parse, baseDomain, visited, links) <==> l in links && Admits(parse, baseDomain, visited, l)
  {
    AdmittedCounts(parse, baseDomain, visited, links);
    forall l ensures l in Admitted(parse, baseDomain, visited, links) <==> l in links && Admits(parse, baseDomain, visited, l) {
      assert l in Admitted(parse, baseDomain, visited, links) <==> multiset(Admitted(parse, baseDomain, visited, links))[l] > 0;
      assert l in links <==> multiset(links)[l] > 0;
    }
  }

  /** Filtering one more link extends the filtered prefix by that link when it is admitted. */
  lemma AdmittedStep(parse: string -> Url, baseDomain: string, visited: set<string>, links: seq<string>, i: nat)
    requires i < |links|
    ensures Admitted(parse, baseDomain, visited, links[..i + 1]) ==
              Admitted(parse, baseDomain, visited, links[..i]) + (if Admits(parse, baseDomain, visited, links[i]) then [links[i]] else [])
  {
    assert links[..i + 1][..i] == links[..i];
  }

  /** What one iteration of a worker's loop did. */
  datatype Step =
      /** The queue was empty: `get` waits. */
    | Waiting
      /** The URL was visited already and was dropped without a fetch. */
    | Skipped(url: string)
      /** The URL was claimed and fetched. */
    | Fetched(url: string, run: Fetching.Run)

  class AsyncWebCrawler {
    /** `urlparse`, which is not part of this model. */
    const parse: string -> Url
    const baseUrl: string
    const baseDomain: string
    const concurrency: int

    var visited: set<string>
    /** The URLs in `urls_to_visit`, head first. */
    var queue: seq<string>
    /** The queue's count of unfinished tasks: raised by `put`, lowered by `task_done`. */
    var unfinished: int

    /** The URLs workers have taken with `get` and not yet marked done. */
    ghost var inFlight: nat
    /** The URLs handed to `fetch`, in order. */
    ghost var fetched: seq<string>

    /**
     * The frontier's invariant: every unfinished task is a queued URL or one a
     * worker holds; no URL has been fetched twice, and every fetched URL is
     * visited; every queued URL is the seed or in the domain.
     */
    ghost predicate Valid()
      reads this
    {
      && unfinished == |queue| + inFlight
      && (forall i, j :: 0 <= i < j < |fetched| ==> fetched[i] != fetched[j])
      && (forall i :: 0 <= i < |fetched| ==> fetched[i] in visited)
      && (forall i :: 0 <= i < |queue| ==> queue[i] == baseUrl || InDomain(parse, baseDomain, queue[i]))
    }

    /** `__init__`: the normalised seed is the only queued URL, and the domain is the raw seed's host, lowered. */
    constructor (parse: string -> Url, baseUrl: string, concurrency: int)
      ensures this.parse == parse && this.concurrency == concurrency
      ensures this.baseUrl == NormalizeUrl(parse, baseUrl)
      ensures baseDomain == Lower(parse(baseUrl).netloc)
      ensures visited == {} && queue == [this.baseUrl] && unfinished == 1
      ensures inFlight == 0 && fetched == []
      ensures Valid()
    {
      this.parse := parse;
      this.baseUrl := NormalizeUrl(parse, baseUrl);
      this.baseDomain := Lower(parse(baseUrl).netloc);
      this.concurrency := concurrency;
      visited := {};
      queue := [NormalizeUrl(parse, baseUrl)];
      unfinished := 1;
      inFlight := 0;
      fetched := [];
    }

    /** `urls_to_visit.get()`: takes the head of the queue; on an empty queue the worker waits, and nothing changes. */
    method Get() returns (url: Option<string>)
      requires Valid()
      modifies this
      ensures old(queue) == [] ==> url == None && queue == [] && inFlight == old(inFlight)
      ensures old(queue) != [] ==> url == Some(old(queue)[0]) && queue == old(queue)[1..] && inFlight == old(inFlight) + 1
      ensures unfinished == old(unfinished) && visited == old(visited) && fetched == old(fetched)
      ensures Valid()
    {
      if queue == [] {
        return None;
      }
      url := Some(queue[0]);
      queue := queue[1..];
      inFlight := inFlight + 1;
    }

    /** The locked check-and-mark of `worker`: a URL not yet visited is marked visited and handed to `fetch`. */
    method MarkVisited(url: string) returns (isNew: bool)
      requires Valid()
      modifies this
      ensures isNew <==> url !in old(visited)
      ensures visited == old(visited) + {url}
      ensures fetched == if isNew then old(fetched) + [url] else old(fetched)
      ensures queue == old(queue) && unfinished == old(unfinished) && inFlight == old(inFlight)
      ensures Valid()
    {
      if url in visited {
        return false;
      }
      visited := visited + {url};
      fetched := fetched + [url];
      isNew := true;
    }

    /**
     * `urls_to_visit.task_done()`. asyncio raises `ValueError` when no task is
     * unfinished, which is `false` here. It is called after a `get`, or by a
     * worker cancelled once the queue has drained.
     */
    method TaskDone() returns (ok: bool)
      requires Valid() && (inFlight > 0 || queue == [])
      modifies this
      ensures ok <==> old(inFlight) > 0
      ensures ok ==> unfinished == old(unfinished) - 1 && inFlight == old(inFlight) - 1
      ensures !ok ==> unfinished == old(unfinished) == 0 && inFlight == old(inFlight)
      ensures queue == old(queue) && visited == old(visited) && fetched == old(fetched)
      ensures Valid()
    {
      if unfinished <= 0 {
        return false;
      }
      unfinished := unfinished - 1;
      inFlight := inFlight - 1;
      ok := true;
    }

    /** `enqueue_urls(links)`: puts every in-domain link that is not visited, in order. */
    method Enqueue(links: seq<string>)
      requires Valid()
      modifies this
      ensures queue == old(queue) + Admitted(parse, baseDomain, visited, links)
      ensures unfinished == old(unfinished) + |Admitted(parse, baseDomain, visited, links)|
      ensures visited == old(visited) && inFlight == old(inFlight) && fetched == old(fetched)
      ensures Valid()
    {
      for i := 0 to |links|
        invariant queue == old(queue) + Admitted(parse, baseDomain, visited, links[..i])
        invariant unfinished == old(unfinished) + |Admitted(parse, baseDomain, visited, links[..i])|
        invariant visited == old(visited) && inFlight == old(inFlight) && fetched == old(fetched)
        invariant Valid()
      {
        var link := links[i];
        AdmittedStep(parse, baseDomain, visited, links, i);
        if Lower(parse(link).netloc) == baseDomain {
          if link !in visited {
            queue := queue + [link];
            unfinished := unfinished + 1;
          }
        }
        assert queue == old(queue) + Admitted(parse, baseDomain, visited, links[..i + 1]);
      }
      assert links[..|links|] == links;
    }

    /** `fetch(url, retries)`: the attempt loop, whose HTML page hands its links to `enqueue_urls`. */
    method Fetch(url: string, outcomes: seq<Fetching.Outcome>, retries: int) returns (run: Fetching.Run)
      requires Valid() && retries <= |outcomes|
      modifies this
      ensures run == Fetching.Attempts(url, retries, outcomes, 0)
      ensures queue == old(queue) + Admitted(parse, baseDomain, visited, Fetching.EnqueuedLinks(run.events))
      ensures unfinished == old(unfinished) + |Admitted(parse, baseDomain, visited, Fetching.EnqueuedLinks(run.events))|
      ensures visited == old(visited) && inFlight == old(inFlight) && fetched == old(fetched)
      ensures Valid()
    {
      var events, attempts := Fetching.Fetch(url, outcomes, retries);
      run := Fetching.Run(events, attempts);
      Enqueue(Fetching.EnqueuedLinks(events));
    }

    /**
     * One iteration of `worker`'s loop: get a URL; under the lock, drop it if
     * it is visited and otherwise mark it visited; fetch it; and in every case
     * call `task_done`. The URL taken is the URL finished, so the number of
     * URLs in flight is what it was.
     */
    method WorkerIteration(outcomes: seq<Fetching.Outcome>, retries: int) returns (step: Step)
      requires Valid() && retries <= |outcomes|
      modifies this
      ensures old(queue) == [] <==> step.Waiting?
      ensures step.Waiting? ==> queue == [] && visited == old(visited) && fetched == old(fetched)
      ensures !step.Waiting? ==> step.url == old(queue)[0] && visited == old(visited) + {step.url}
      ensures step.Skipped? <==> old(queue) != [] && old(queue)[0] in old(visited)
      ensures step.Skipped? ==> queue == old(queue)[1..] && fetched == old(fetched)
      ensures step.Fetched? ==>
                && step.url !in old(visited)
                && (step.url == baseUrl || InDomain(parse, baseDomain, step.url))
                && fetched == old(fetched) + [step.url]
                && step.run == Fetching.Attempts(step.url, retries, outcomes, 0)
                && queue == old(queue)[1..] + Admitted(parse, baseDomain, visited, Fetching.EnqueuedLinks(step.run.events))
      ensures inFlight == old(inFlight)
      ensures Valid()
    {
      var got := Get();
      if got.None? {
        return Waiting;
      }
      var url := got.value;
      var isNew := MarkVisited(url);
      if isNew {
        var run := Fetch(url, outcomes, retries);
        step := Fetched(url, run);
      } else {
        step := Skipped(url);
      }
      var done := TaskDone();
    }

    /** `urls_to_visit.join()` returns once every task has been marked done: then the queue is empty and no worker holds a URL. */
    method Join() returns (drained: bool)
      requires Valid()
      ensures drained <==> queue == [] && inFlight == 0
    {
      drained := unfinished == 0;
    }

    /**
     * `crawl`, with one worker step at a time: workers run until `join`
     * returns, after which each of the `concurrency` workers is cancelled while
     * it waits on `get`; its `finally` calls `task_done` on a drained queue,
     * whose `ValueError` `gather(..., return_exceptions=True)` swallows. The
     * transport answers URL `u` with the outcomes `network(u)`, and at most
     * `fuel` worker steps are taken. With no worker (`concurrency <= 0`)
     * nothing is taken from the queue, so `join` returns only on a queue that
     * was drained already.
     */
    method Crawl(network: string -> seq<Fetching.Outcome>, fuel: nat) returns (drained: bool)
      requires Valid() && inFlight == 0
      requires forall u :: Fetching.DefaultRetries <= |network(u)|
      modifies this
      ensures drained <==> queue == []
      ensures drained ==> unfinished == 0
      ensures inFlight == 0 && old(visited) <= visited
      ensures |old(fetched)| <= |fetched| && fetched[..|old(fetched)|] == old(fetched)
      ensures forall i :: |old(fetched)| <= i < |fetched| ==> fetched[i] == baseUrl || InDomain(parse, baseDomain, fetched[i])
      ensures concurrency <= 0 ==> fetched == old(fetched) && queue == old(queue) && visited == old(visited)
      ensures Valid()
    {
      var steps := 0;
      drained := Join();
      while !drained && concurrency > 0 && steps < fuel
        invariant Valid() && inFlight == 0
        invariant concurrency <= 0 ==> fetched == old(fetched) && queue == old(queue) && visited == old(visited)
        invariant drained <==> queue == []
        invariant old(visited) <= visited
        invariant |old(fetched)| <= |fetched| && fetched[..|old(fetched)|] == old(fetched)
        invariant forall i :: |old(fetched)| <= i < |fetched| ==> fetched[i] == baseUrl || InDomain(parse, baseDomain, fetched[i])
        decreases fuel - steps
      {
        var url := queue[0];
        var step := WorkerIteration(network(url), Fetching.DefaultRetries);
        steps := steps + 1;
        drained := Join();
      }
      if drained {
        var w := 0;
        while w < concurrency
          invariant Valid() && inFlight == 0 && queue == [] && unfinished == 0
          invariant concurrency <= 0 ==> fetched == old(fetched) && queue == old(queue) && visited == old(visited)
          invariant old(visited) <= visited
          invariant |old(fetched)| <= |fetched| && fetched[..|old(fetched)|] == old(fetched)
          invariant forall i :: |old(fetched)| <= i < |fetched| ==> fetched[i] == baseUrl || InDomain(parse, baseDomain, fetched[i])
        {
          var ok := TaskDone();
          w := w + 1;
        }
      }
    }
  }
}

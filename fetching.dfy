/**
 * The attempt loop of `AsyncWebCrawler.fetch` in crawler/crawler.py: how each
 * attempt's outcome is classified, what is logged, when the crawler sleeps
 * before trying again, and which links are handed on for enqueuing.
 *
 * The HTTP session is not modelled: what attempt k ends in is the input
 * `outcomes[k]`, and what `fetch` does is recorded as a trace of events.
 */
module Fetching {
  import opened UrlNorm

  /** What one `session.get` attempt ends in. */
  datatype Outcome =
      /** A response arrived: its status, its reason phrase, its Content-Type header ("" when absent), and the links the link extractor finds in its body. */
    | Response(status: nat, reason: string, contentType: string, links: seq<string>)
      /**
       * A `ClientResponseError` that `session.get` raises itself rather than
       * `raise_for_status`, with its status and message: `TooManyRedirects`,
       * for one, carries status 0.
       */
    | ResponseError(code: nat, message: string)
      /** `ClientConnectionError`, `ClientOSError` or `asyncio.TimeoutError`, with the exception's text. */
    | ConnectionFailure(error: string)
      /** Any other exception, with its text. */
    | OtherFailure(error: string)

  datatype Level = Info | Warning | Error

  /** What `fetch` does that can be observed: log lines, back-off sleeps, reading the body, and handing links to `enqueue_urls`. */
  datatype Event =
    | Log(level: Level, message: Message)
    | Sleep(seconds: nat)
    | ReadBody
    | Enqueue(links: seq<string>)

  /** The events of one call of `fetch` and the number of attempts it made. */
  datatype Run = Run(events: seq<Event>, attempts: nat)

  /** The number of attempts `fetch` makes when the caller does not say otherwise. */
  const DefaultRetries: int := 3

  function Pow2(k: nat): (r: nat)
    ensures r >= 1
  {
    if k == 0 then 1 else 2 * Pow2(k - 1)
  }

  function DigitChar(d: nat): char
    requires d < 10
  {
    "0123456789"[d]
  }

  /** The decimal text of a number, as an f-string writes it. */
  function NatToString(n: nat): (r: string)
    ensures |r| >= 1
  {
    if n < 10 then [DigitChar(n)] else NatToString(n / 10) + [DigitChar(n % 10)]
  }

  /** `sub in s` for strings. */
  predicate Contains(s: string, sub: string)
    decreases |s|
  {
    StartsWith(s, sub) || (s != [] && Contains(s[1..], sub))
  }

  /** The content-type gate: the lowered header contains "text/html". */
  predicate IsHtml(contentType: string) {
    Contains(Lower(contentType), "text/html")
  }

  /** The gate ignores letter case: a content type passes exactly when its lowered form does. */
  lemma HtmlGateIgnoresCase(contentType: string)
    ensures IsHtml(contentType) <==> IsHtml(Lower(contentType))
  {
    LowerIdempotent(contentType);
  }

  /** Every character of a contained string occurs in the containing one. */
  lemma {:induction false} ContainsChars(s: string, sub: string, c: char)
    requires Contains(s, sub) && c in sub
    ensures c in s
    decreases |s|
  {
    if StartsWith(s, sub) {
      assert sub == s[..|sub|];
    } else {
      ContainsChars(s[1..], sub, c);
    }
  }

  /** `raise_for_status` raises for every status from 400 on. */
  predicate IsErrorStatus(status: nat) {
    status >= 400
  }

  /** The log lines `fetch` writes, by kind and with the values they mention. */
  datatype Message =
    | Visiting(url: string)
    | Skipping(url: string)
    | NotFound(url: string)
    | ClientError(status: nat, url: string, reason: string)
    | AttemptFailed(attempt: nat, url: string, error: string)
    | GaveUp(url: string, retries: nat)
    | Unhandled(url: string, error: string)

  /** The text of a log line, as the f-strings of `fetch` spell it. */
  function Text(m: Message): string {
    match m
    case Visiting(url) => "Visiting: " + url
    case Skipping(url) => "Skipping non-HTML content: " + url
    case NotFound(url) => "URL not found: " + url
    case ClientError(status, url, reason) => "Client error " + NatToString(status) + " for " + url + ": " + reason
    case AttemptFailed(n, url, error) => "Attempt " + NatToString(n) + " failed for " + url + ": " + error
    case GaveUp(url, retries) =>
      "Failed to fetch " + url + " after " + NatToString(retries) + " attempts due to connection error"
    case Unhandled(url, error) => "Unhandled exception for " + url + ": " + error
  }

  /** The texts of two log lines of different kinds differ: each kind opens with its own words. */
  lemma TextTellsKind(m1: Message, m2: Message)
    requires Text(m1) == Text(m2)
    ensures m1.Visiting? == m2.Visiting? && m1.Skipping? == m2.Skipping? && m1.NotFound? == m2.NotFound?
    ensures m1.ClientError? == m2.ClientError? && m1.AttemptFailed? == m2.AttemptFailed?
    ensures m1.GaveUp? == m2.GaveUp? && m1.Unhandled? == m2.Unhandled?
  {
    var o1, o2 := Opening(m1), Opening(m2);
    assert o1 == o2;
  }

  /** The first two characters of each kind of log line. */
  function Opening(m: Message): (r: string)
    ensures |Text(m)| >= 2 && Text(m)[..2] == r
  {
    match m
    case Visiting(_) => "Vi"
    case Skipping(_) => "Sk"
    case NotFound(_) => "UR"
    case ClientError(_, _, _) => "Cl"
    case AttemptFailed(_, _, _) => "At"
    case GaveUp(_, _) => "Fa"
    case Unhandled(_, _) => "Un"
  }

  /** A string contained in `s` is contained in `s` with anything put before it. */
  lemma {:induction false} ContainsAfter(p: string, s: string, sub: string)
    requires StartsWith(s, sub)
    ensures Contains(p + s, sub)
    decreases |p|
  {
    if p == [] {
      assert p + s == s;
    } else {
      assert (p + s)[1..] == p[1..] + s;
      ContainsAfter(p[1..], s, sub);
    }
  }

  /** A string is contained in itself with anything put around it. */
  lemma Surrounded(p: string, sub: string, q: string)
    ensures Contains(p + sub + q, sub)
  {
    assert p + sub + q == p + (sub + q);
    assert (sub + q)[..|sub|] == sub;
    ContainsAfter(p, sub + q, sub);
  }

  /** Every log line names the URL it is about. */
  lemma TextNamesUrl(m: Message)
    ensures Contains(Text(m), m.url)
  {
    var (p, q) := Around(m);
    Surrounded(p, m.url, q);
  }

  /** What a log line's text puts before and after its URL. */
  function Around(m: Message): (r: (string, string))
    ensures Text(m) == r.0 + m.url + r.1
  {
    match m
    case Visiting(url) => ("Visiting: ", "")
    case Skipping(url) => ("Skipping non-HTML content: ", "")
    case NotFound(url) => ("URL not found: ", "")
    case ClientError(status, url, reason) => ("Client error " + NatToString(status) + " for ", ": " + reason)
    case AttemptFailed(n, url, error) => ("Attempt " + NatToString(n) + " failed for ", ": " + error)
    case GaveUp(url, retries) => ("Failed to fetch ", " after " + NatToString(retries) + " attempts due to connection error")
    case Unhandled(url, error) => ("Unhandled exception for ", ": " + error)
  }

  /** The warning for a `ClientResponseError`: its own line for a 404, its status and message otherwise. */
  function ResponseErrorMessage(url: string, status: nat, message: string): Message {
    if status == 404 then NotFound(url) else ClientError(status, url, message)
  }

  /** The events of an attempt whose outcome ends the loop, that is, of every outcome but a connection failure. */
  function Settle(url: string, o: Outcome): (r: seq<Event>)
    requires !o.ConnectionFailure?
    ensures 1 <= |r| <= 3 && r[0].Log?
  {
    match o
    case Response(status, reason, contentType, links) =>
      if IsErrorStatus(status) then
        [Log(Warning, ResponseErrorMessage(url, status, reason))]
      else if IsHtml(contentType) then
        [Log(Info, Visiting(url)), ReadBody, Enqueue(links)]
      else
        [Log(Info, Skipping(url))]
    case ResponseError(status, message) =>
      [Log(Warning, ResponseErrorMessage(url, status, message))]
    case OtherFailure(e) =>
      [Log(Error, Unhandled(url, e))]
  }

  /**
   * What `fetch(url, retries)` does from attempt `attempt` on. A connection
   * failure is logged and, unless it was the last attempt, followed by a sleep
   * of 2^attempt and the next attempt; after the last one the crawler gives
   * up with an error. Every other outcome ends the loop.
   */
  function Attempts(url: string, retries: int, outcomes: seq<Outcome>, attempt: nat): (r: Run)
    requires retries <= |outcomes|
    decreases retries - attempt
    ensures attempt < retries ==> 1 <= r.attempts <= retries - attempt
    ensures attempt >= retries ==> r.attempts == 0 && r.events == []
  {
    if attempt >= retries then Run([], 0)
    else if outcomes[attempt].ConnectionFailure? then
      var warning := Log(Warning, AttemptFailed(attempt + 1, url, outcomes[attempt].error));
      if attempt < retries - 1 then
        var rest := Attempts(url, retries, outcomes, attempt + 1);
        Run([warning, Sleep(Pow2(attempt))] + rest.events, 1 + rest.attempts)
      else
        Run([warning, Log(Error, GaveUp(url, retries))], 1)
    else
      Run(Settle(url, outcomes[attempt]), 1)
  }

  /** The links of every `Enqueue` event, in order. */
  function EnqueuedLinks(events: seq<Event>): seq<string> {
    if events == [] then []
    else (if events[0].Enqueue? then events[0].links else []) + EnqueuedLinks(events[1..])
  }

  /** The durations of every sleep, in order. */
  function Sleeps(events: seq<Event>): seq<nat> {
    if events == [] then []
    else (if events[0].Sleep? then [events[0].seconds] else []) + Sleeps(events[1..])
  }

  /** The messages of every log line of a level, in order. */
  function Logs(events: seq<Event>, level: Level): seq<Message> {
    if events == [] then []
    else (if events[0].Log? && events[0].level == level then [events[0].message] else []) + Logs(events[1..], level)
  }

  /** The back-off durations 2^from, 2^(from+1), ..., n of them. */
  function Backoffs(from: nat, n: nat): seq<nat>
    decreases n
  {
    if n == 0 then [] else [Pow2(from)] + Backoffs(from + 1, n - 1)
  }

  /**
   * `AsyncWebCrawler.fetch`'s `for attempt in range(retries)` loop, with its
   * `return` on a response that passed `raise_for_status` and its `break` on a
   * response error or an unhandled exception.
   */
  method Fetch(url: string, outcomes: seq<Outcome>, retries: int) returns (events: seq<Event>, attempts: nat)
    requires retries <= |outcomes|
    ensures Run(events, attempts) == Attempts(url, retries, outcomes, 0)
  {
    events, attempts := [], 0;
    var attempt: nat := 0;
    while attempt < retries
      invariant retries >= 0 ==> attempt <= retries
      invariant attempts == attempt
      invariant Attempts(url, retries, outcomes, 0) ==
                  Run(events + Attempts(url, retries, outcomes, attempt).events,
                      attempt + Attempts(url, retries, outcomes, attempt).attempts)
      decreases retries - attempt
    {
      attempts := attempts + 1;
      ghost var prefix := events;
      if !outcomes[attempt].ConnectionFailure? {
        AttemptSettles(url, retries, outcomes, attempt);
      } else if attempt < retries - 1 {
        AttemptRetries(url, retries, outcomes, attempt);
      }
      match outcomes[attempt] {
      case Response(status, reason, contentType, links) =>
        if IsErrorStatus(status) {
          if status == 404 {
            events := events + [Log(Warning, NotFound(url))];
          } else {
            events := events + [Log(Warning, ClientError(status, url, reason))];
          }
          assert events == prefix + Settle(url, outcomes[attempt]);
          break;
        }
        if IsHtml(contentType) {
          events := events + [Log(Info, Visiting(url)), ReadBody, Enqueue(links)];
          assert events == prefix + Settle(url, outcomes[attempt]);
          return;
        } else {
          events := events + [Log(Info, Skipping(url))];
          assert events == prefix + Settle(url, outcomes[attempt]);
          return;
        }
      case ResponseError(status, message) =>
        if status == 404 {
          events := events + [Log(Warning, NotFound(url))];
        } else {
          events := events + [Log(Warning, ClientError(status, url, message))];
        }
        assert events == prefix + Settle(url, outcomes[attempt]);
        break;
      case ConnectionFailure(e) =>
        events := events + [Log(Warning, AttemptFailed(attempt + 1, url, e))];
        if attempt < retries - 1 {
          events := events + [Sleep(Pow2(attempt))];
          RetryTrace(prefix, Log(Warning, AttemptFailed(attempt + 1, url, e)), Sleep(Pow2(attempt)),
                     Attempts(url, retries, outcomes, attempt + 1).events);
        } else {
          events := events + [Log(Error, GaveUp(url, retries))];
        }
      case OtherFailure(e) =>
        events := events + [Log(Error, Unhandled(url, e))];
        assert events == prefix + Settle(url, outcomes[attempt]);
        break;
      }
      attempt := attempt + 1;
    }
  }

  /** Appending an attempt's warning and sleep, then the later attempts' events, appends that attempt's events. */
  lemma RetryTrace(prefix: seq<Event>, warning: Event, sleep: Event, rest: seq<Event>)
    ensures prefix + [warning] + [sleep] + rest == prefix + ([warning, sleep] + rest)
  {
    assert [warning, sleep] == [warning] + [sleep];
  }

  /** An outcome the `except ClientResponseError` clause handles: one raised by `raise_for_status` or by `session.get`. */
  predicate IsResponseError(o: Outcome) {
    (o.Response? && IsErrorStatus(o.status)) || o.ResponseError?
  }

  /** An outcome that makes `fetch` read the body and hand the extracted links on. */
  predicate IsHtmlSuccess(o: Outcome) {
    o.Response? && !IsErrorStatus(o.status) && IsHtml(o.contentType)
  }

  /** The links an attempt's outcome hands on when it ends the loop. */
  function HandedOn(o: Outcome): seq<string> {
    if IsHtmlSuccess(o) then o.links else []
  }

  lemma {:induction false} SleepsAppend(a: seq<Event>, b: seq<Event>)
    ensures Sleeps(a + b) == Sleeps(a) + Sleeps(b)
  {
    if a == [] {
      assert a + b == b;
    } else {
      assert (a + b)[0] == a[0];
      assert (a + b)[1..] == a[1..] + b;
      SleepsAppend(a[1..], b);
    }
  }

  lemma {:induction false} LogsAppend(a: seq<Event>, b: seq<Event>, level: Level)
    ensures Logs(a + b, level) == Logs(a, level) + Logs(b, level)
  {
    if a == [] {
      assert a + b == b;
    } else {
      assert (a + b)[0] == a[0];
      assert (a + b)[1..] == a[1..] + b;
      LogsAppend(a[1..], b, level);
    }
  }

  lemma {:induction false} EnqueuedLinksAppend(a: seq<Event>, b: seq<Event>)
    ensures EnqueuedLinks(a + b) == EnqueuedLinks(a) + EnqueuedLinks(b)
  {
    if a == [] {
      assert a + b == b;
    } else {
      assert (a + b)[0] == a[0];
      assert (a + b)[1..] == a[1..] + b;
      EnqueuedLinksAppend(a[1..], b);
    }
  }

  lemma FiltersOfOne(e: Event)
    ensures Sleeps([e]) == (if e.Sleep? then [e.seconds] else [])
    ensures forall level :: Logs([e], level) == (if e.Log? && e.level == level then [e.message] else [])
    ensures EnqueuedLinks([e]) == (if e.Enqueue? then e.links else [])
  {
    assert [e][1..] == [];
  }

  lemma FiltersOfTwo(a: Event, b: Event)
    ensures Sleeps([a, b]) == Sleeps([a]) + Sleeps([b])
    ensures forall level :: Logs([a, b], level) == Logs([a], level) + Logs([b], level)
    ensures EnqueuedLinks([a, b]) == EnqueuedLinks([a]) + EnqueuedLinks([b])
  {
    assert [a, b] == [a] + [b];
    SleepsAppend([a], [b]);
    forall level ensures Logs([a, b], level) == Logs([a], level) + Logs([b], level) {
      LogsAppend([a], [b], level);
    }
    EnqueuedLinksAppend([a], [b]);
  }

  /** A failed attempt that is not the last: one warning, then one sleep. */
  lemma RetryStep(warning: Message, seconds: nat)
    ensures var head := [Log(Warning, warning), Sleep(seconds)];
            && Sleeps(head) == [seconds]
            && Logs(head, Warning) == [warning]
            && Logs(head, Error) == []
            && EnqueuedLinks(head) == []
            && ReadBody !in head
  {
    FiltersOfTwo(Log(Warning, warning), Sleep(seconds));
    FiltersOfOne(Log(Warning, warning));
    FiltersOfOne(Sleep(seconds));
  }

  /** The three events of a visited page. */
  lemma VisitFacts(url: string, links: seq<string>)
    ensures var last := [Log(Info, Visiting(url)), ReadBody, Enqueue(links)];
            && Sleeps(last) == []
            && Logs(last, Error) == [] && Logs(last, Warning) == []
            && EnqueuedLinks(last) == links
  {
    var a, b, c := Log(Info, Visiting(url)), ReadBody, Enqueue(links);
    assert [a, b, c] == [a, b] + [c];
    FiltersOfOne(a);
    FiltersOfOne(b);
    FiltersOfOne(c);
    FiltersOfTwo(a, b);
    SleepsAppend([a, b], [c]);
    LogsAppend([a, b], [c], Error);
    LogsAppend([a, b], [c], Warning);
    EnqueuedLinksAppend([a, b], [c]);
  }

  /** A final, non-retried attempt never sleeps. */
  lemma SettleSleeps(url: string, o: Outcome)
    requires !o.ConnectionFailure?
    ensures Sleeps(Settle(url, o)) == []
  {
    if IsHtmlSuccess(o) {
      VisitFacts(url, o.links);
    } else {
      FiltersOfOne(Settle(url, o)[0]);
    }
  }

  /** The error lines an attempt that ends the loop logs: one for an unhandled exception, none otherwise. */
  function FinalErrors(url: string, o: Outcome): seq<Message> {
    if o.OtherFailure? then [Unhandled(url, o.error)] else []
  }

  /** The number of warnings it logs: one for a response error, none otherwise. */
  function FinalWarnings(o: Outcome): nat {
    if IsResponseError(o) then 1 else 0
  }

  /** What a final, non-retried attempt logs as errors and warnings. */
  lemma SettleLogs(url: string, o: Outcome)
    requires !o.ConnectionFailure?
    ensures Logs(Settle(url, o), Error) == FinalErrors(url, o)
    ensures |Logs(Settle(url, o), Warning)| == FinalWarnings(o)
  {
    if IsHtmlSuccess(o) {
      VisitFacts(url, o.links);
    } else {
      FiltersOfOne(Settle(url, o)[0]);
    }
  }

  /** A final, non-retried attempt reads a body and hands links on exactly when it got an HTML page. */
  lemma SettleLinks(url: string, o: Outcome)
    requires !o.ConnectionFailure?
    ensures EnqueuedLinks(Settle(url, o)) == HandedOn(o)
    ensures ReadBody in Settle(url, o) <==> IsHtmlSuccess(o)
  {
    if IsHtmlSuccess(o) {
      VisitFacts(url, o.links);
    } else {
      FiltersOfOne(Settle(url, o)[0]);
    }
  }

  /**
   * A response error is handled alike whether `raise_for_status` raised it on
   * a response or `session.get` raised it before there was one: one warning,
   * then the loop ends.
   */
  lemma ResponseErrorsAgree(url: string, status: nat, reason: string, contentType: string, links: seq<string>)
    requires IsErrorStatus(status)
    ensures Settle(url, Response(status, reason, contentType, links)) == Settle(url, ResponseError(status, reason))
    ensures Settle(url, ResponseError(status, reason)) == [Log(Warning, ResponseErrorMessage(url, status, reason))]
  {
  }

  /** The two events of an attempt that fails to connect and is the last one allowed. */
  lemma GiveUpStep(warning: Message, error: Message)
    ensures var tail := [Log(Warning, warning), Log(Error, error)];
            && Sleeps(tail) == []
            && Logs(tail, Warning) == [warning]
            && Logs(tail, Error) == [error]
            && EnqueuedLinks(tail) == []
            && ReadBody !in tail
  {
    FiltersOfTwo(Log(Warning, warning), Log(Error, error));
    FiltersOfOne(Log(Warning, warning));
    FiltersOfOne(Log(Error, error));
  }

  /** An attempt that ends the loop contributes its own events and nothing after them. */
  lemma AttemptSettles(url: string, retries: int, outcomes: seq<Outcome>, k: nat)
    requires k < retries <= |outcomes|
    requires !outcomes[k].ConnectionFailure?
    ensures Attempts(url, retries, outcomes, k) == Run(Settle(url, outcomes[k]), 1)
  {
  }

  /** A connection failure before the last attempt is logged, slept on, and followed by the next attempt. */
  lemma AttemptRetries(url: string, retries: int, outcomes: seq<Outcome>, attempt: nat)
    requires attempt < retries - 1 && retries <= |outcomes|
    requires outcomes[attempt].ConnectionFailure?
    ensures var rest := Attempts(url, retries, outcomes, attempt + 1);
            var head := [Log(Warning, AttemptFailed(attempt + 1, url, outcomes[attempt].error)), Sleep(Pow2(attempt))];
            Attempts(url, retries, outcomes, attempt) == Run(head + rest.events, 1 + rest.attempts)
  {
  }

  /**
   * What a connection failure before the last attempt adds to the later
   * attempts' events: its warning and its sleep, and nothing else.
   */
  lemma RetryFilters(url: string, retries: int, outcomes: seq<Outcome>, attempt: nat)
    requires attempt < retries - 1 && retries <= |outcomes|
    requires outcomes[attempt].ConnectionFailure?
    ensures var r := Attempts(url, retries, outcomes, attempt);
            var rest := Attempts(url, retries, outcomes, attempt + 1);
            && r.attempts == 1 + rest.attempts
            && Sleeps(r.events) == [Pow2(attempt)] + Sleeps(rest.events)
            && Logs(r.events, Warning) == [AttemptFailed(attempt + 1, url, outcomes[attempt].error)] + Logs(rest.events, Warning)
            && Logs(r.events, Error) == Logs(rest.events, Error)
            && EnqueuedLinks(r.events) == EnqueuedLinks(rest.events)
            && (ReadBody in r.events <==> ReadBody in rest.events)
  {
    var rest := Attempts(url, retries, outcomes, attempt + 1);
    var warning := AttemptFailed(attempt + 1, url, outcomes[attempt].error);
    var head := [Log(Warning, warning), Sleep(Pow2(attempt))];
    AttemptRetries(url, retries, outcomes, attempt);
    RetryStep(warning, Pow2(attempt));
    SleepsAppend(head, rest.events);
    LogsAppend(head, rest.events, Warning);
    LogsAppend(head, rest.events, Error);
    EnqueuedLinksAppend(head, rest.events);
    assert ReadBody in head + rest.events <==> ReadBody in rest.events;
  }

  /** What the last attempt failing to connect does: one warning, one error for giving up, and nothing else. */
  lemma GiveUpFilters(url: string, retries: int, outcomes: seq<Outcome>, attempt: nat)
    requires attempt == retries - 1 && retries <= |outcomes|
    requires outcomes[attempt].ConnectionFailure?
    ensures var r := Attempts(url, retries, outcomes, attempt);
            && r.attempts == 1
            && Sleeps(r.events) == []
            && Logs(r.events, Warning) == [AttemptFailed(attempt + 1, url, outcomes[attempt].error)]
            && Logs(r.events, Error) == [GaveUp(url, retries)]
            && EnqueuedLinks(r.events) == []
            && ReadBody !in r.events
  {
    var warning := AttemptFailed(attempt + 1, url, outcomes[attempt].error);
    assert Attempts(url, retries, outcomes, attempt).events == [Log(Warning, warning), Log(Error, GaveUp(url, retries))];
    GiveUpStep(warning, GaveUp(url, retries));
  }

  /** An attempt that ends the loop is not followed by a sleep. */
  lemma BackoffSettles(url: string, retries: int, outcomes: seq<Outcome>, attempt: nat)
    requires attempt < retries <= |outcomes|
    requires !outcomes[attempt].ConnectionFailure?
    ensures var r := Attempts(url, retries, outcomes, attempt);
            r.attempts == 1 && Sleeps(r.events) == []
  {
    AttemptSettles(url, retries, outcomes, attempt);
    SettleSleeps(url, outcomes[attempt]);
  }

  /** A connection failure before the last attempt puts a sleep of 2^attempt before the later attempts' sleeps. */
  lemma BackoffRetries(url: string, retries: int, outcomes: seq<Outcome>, attempt: nat)
    requires attempt < retries - 1 && retries <= |outcomes|
    requires outcomes[attempt].ConnectionFailure?
    requires var rest := Attempts(url, retries, outcomes, attempt + 1);
             Sleeps(rest.events) == Backoffs(attempt + 1, rest.attempts - 1)
    ensures var r := Attempts(url, retries, outcomes, attempt);
            Sleeps(r.events) == Backoffs(attempt, r.attempts - 1)
  {
    var rest := Attempts(url, retries, outcomes, attempt + 1);
    RetryFilters(url, retries, outcomes, attempt);
    assert Backoffs(attempt, rest.attempts) == [Pow2(attempt)] + Backoffs(attempt + 1, rest.attempts - 1);
  }

  /**
   * Back-off: the sleeps of a run fall exactly between its attempts, one
   * fewer than the attempts made, and the one after attempt k lasts 2^k.
   */
  lemma {:induction false} BackoffBetweenAttempts(url: string, retries: int, outcomes: seq<Outcome>, attempt: nat)
    requires retries <= |outcomes|
    ensures var r := Attempts(url, retries, outcomes, attempt);
            Sleeps(r.events) == if r.attempts == 0 then [] else Backoffs(attempt, r.attempts - 1)
    decreases retries - attempt
  {
    if attempt < retries {
      if !outcomes[attempt].ConnectionFailure? {
        BackoffSettles(url, retries, outcomes, attempt);
      } else if attempt < retries - 1 {
        BackoffBetweenAttempts(url, retries, outcomes, attempt + 1);
        BackoffRetries(url, retries, outcomes, attempt);
      } else {
        GiveUpFilters(url, retries, outcomes, attempt);
      }
    }
  }

  /** When every remaining attempt fails to connect, all of them are made, one error ends the run, and no link is handed on. */
  lemma {:induction false} ExhaustErrors(url: string, retries: int, outcomes: seq<Outcome>, attempt: nat)
    requires attempt < retries <= |outcomes|
    requires forall k :: attempt <= k < retries ==> outcomes[k].ConnectionFailure?
    ensures var r := Attempts(url, retries, outcomes, attempt);
            && r.attempts == retries - attempt
            && Logs(r.events, Error) == [GaveUp(url, retries)]
            && EnqueuedLinks(r.events) == []
    decreases retries - attempt
  {
    if attempt < retries - 1 {
      RetryFilters(url, retries, outcomes, attempt);
      ExhaustErrors(url, retries, outcomes, attempt + 1);
    } else {
      GiveUpFilters(url, retries, outcomes, attempt);
    }
  }

  /** The warnings of n consecutive attempts from attempt `from` on that all fail to connect. */
  function FailureWarnings(url: string, outcomes: seq<Outcome>, from: nat, n: nat): (r: seq<Message>)
    requires from + n <= |outcomes|
    requires forall k :: from <= k < from + n ==> outcomes[k].ConnectionFailure?
    ensures |r| == n
    decreases n
  {
    if n == 0 then [] else [AttemptFailed(from + 1, url, outcomes[from].error)] + FailureWarnings(url, outcomes, from + 1, n - 1)
  }

  /** The i-th of those warnings names attempt from + i + 1 and its error. */
  lemma {:induction false} FailureWarningsAt(url: string, outcomes: seq<Outcome>, from: nat, n: nat, i: nat)
    requires from + n <= |outcomes|
    requires forall k :: from <= k < from + n ==> outcomes[k].ConnectionFailure?
    requires i < n
    ensures FailureWarnings(url, outcomes, from, n)[i] == AttemptFailed(from + i + 1, url, outcomes[from + i].error)
    decreases n
  {
    if i > 0 {
      FailureWarningsAt(url, outcomes, from + 1, n - 1, i - 1);
      assert from + 1 + (i - 1) == from + i;
    }
  }

  /** ... and each of them logs a warning with its number and its error. */
  lemma {:induction false} ExhaustWarnings(url: string, retries: int, outcomes: seq<Outcome>, attempt: nat)
    requires attempt < retries <= |outcomes|
    requires forall k :: attempt <= k < retries ==> outcomes[k].ConnectionFailure?
    ensures Logs(Attempts(url, retries, outcomes, attempt).events, Warning) == FailureWarnings(url, outcomes, attempt, retries - attempt)
    decreases retries - attempt
  {
    if attempt < retries - 1 {
      RetryFilters(url, retries, outcomes, attempt);
      ExhaustWarnings(url, retries, outcomes, attempt + 1);
    } else {
      GiveUpFilters(url, retries, outcomes, attempt);
    }
  }

  /**
   * When every remaining attempt fails to connect, `fetch` makes every one of
   * them: one warning per attempt naming its number and error, a sleep between
   * consecutive attempts, and a single error once the last has failed.
   */
  lemma ConnectionFailuresExhaust(url: string, retries: int, outcomes: seq<Outcome>, attempt: nat)
    requires attempt < retries <= |outcomes|
    requires forall k :: attempt <= k < retries ==> outcomes[k].ConnectionFailure?
    ensures var r := Attempts(url, retries, outcomes, attempt);
            && r.attempts == retries - attempt
            && Logs(r.events, Error) == [GaveUp(url, retries)]
            && |Logs(r.events, Warning)| == retries - attempt
            && (forall i :: 0 <= i < retries - attempt ==>
                  Logs(r.events, Warning)[i] == AttemptFailed(attempt + i + 1, url, outcomes[attempt + i].error))
            && Sleeps(r.events) == Backoffs(attempt, retries - attempt - 1)
            && EnqueuedLinks(r.events) == []
  {
    ExhaustErrors(url, retries, outcomes, attempt);
    ExhaustWarnings(url, retries, outcomes, attempt);
    BackoffBetweenAttempts(url, retries, outcomes, attempt);
    forall i | 0 <= i < retries - attempt
      ensures Logs(Attempts(url, retries, outcomes, attempt).events, Warning)[i] == AttemptFailed(attempt + i + 1, url, outcomes[attempt + i].error)
    {
      FailureWarningsAt(url, outcomes, attempt, retries - attempt, i);
    }
  }

  /** The step of `StopsAtFirstOtherOutcome` for a failed attempt before attempt k. */
  lemma StopsAfterRetry(url: string, retries: int, outcomes: seq<Outcome>, attempt: nat, k: nat)
    requires attempt < k < retries <= |outcomes|
    requires outcomes[attempt].ConnectionFailure? && !outcomes[k].ConnectionFailure?
    requires var r := Attempts(url, retries, outcomes, attempt + 1);
             var last := Settle(url, outcomes[k]);
             && r.attempts == k - (attempt + 1) + 1
             && |last| <= |r.events| && r.events[|r.events| - |last|..] == last
    ensures var r := Attempts(url, retries, outcomes, attempt);
            var last := Settle(url, outcomes[k]);
            && r.attempts == k - attempt + 1
            && |last| <= |r.events| && r.events[|r.events| - |last|..] == last
  {
    var rest := Attempts(url, retries, outcomes, attempt + 1);
    var head := [Log(Warning, AttemptFailed(attempt + 1, url, outcomes[attempt].error)), Sleep(Pow2(attempt))];
    AttemptRetries(url, retries, outcomes, attempt);
    SuffixOfAppend(head, rest.events, |Settle(url, outcomes[k])|);
  }

  /**
   * No retry after anything but a connection failure: when attempt k is the
   * first that does not fail to connect, `fetch` makes exactly k + 1 attempts
   * and ends with that attempt's own events.
   */
  lemma {:induction false} StopsAtFirstOtherOutcome(url: string, retries: int, outcomes: seq<Outcome>, attempt: nat, k: nat)
    requires attempt <= k < retries <= |outcomes|
    requires forall j :: attempt <= j < k ==> outcomes[j].ConnectionFailure?
    requires !outcomes[k].ConnectionFailure?
    ensures var r := Attempts(url, retries, outcomes, attempt);
            var last := Settle(url, outcomes[k]);
            && r.attempts == k - attempt + 1
            && |last| <= |r.events| && r.events[|r.events| - |last|..] == last
    decreases k - attempt
  {
    if attempt < k {
      StopsAtFirstOtherOutcome(url, retries, outcomes, attempt + 1, k);
      StopsAfterRetry(url, retries, outcomes, attempt, k);
    } else {
      AttemptSettles(url, retries, outcomes, k);
    }
  }

  /** The log lines and links of a run that ends with the attempt it starts with. */
  lemma SettledRunFilters(url: string, retries: int, outcomes: seq<Outcome>, k: nat)
    requires k < retries <= |outcomes|
    requires !outcomes[k].ConnectionFailure?
    ensures var r := Attempts(url, retries, outcomes, k);
            && Logs(r.events, Error) == FinalErrors(url, outcomes[k])
            && |Logs(r.events, Warning)| == FinalWarnings(outcomes[k])
            && EnqueuedLinks(r.events) == HandedOn(outcomes[k])
  {
    AttemptSettles(url, retries, outcomes, k);
    SettleLogs(url, outcomes[k]);
    SettleLinks(url, outcomes[k]);
  }

  /** A failed attempt that is not the last adds one warning, and no error or link, to the later attempts'. */
  lemma RetriedRunFilters(url: string, retries: int, outcomes: seq<Outcome>, attempt: nat,
                          errors: seq<Message>, warnings: nat, links: seq<string>)
    requires attempt < retries - 1 && retries <= |outcomes|
    requires outcomes[attempt].ConnectionFailure?
    requires var rest := Attempts(url, retries, outcomes, attempt + 1);
             && Logs(rest.events, Error) == errors
             && |Logs(rest.events, Warning)| == warnings
             && EnqueuedLinks(rest.events) == links
    ensures var r := Attempts(url, retries, outcomes, attempt);
            && Logs(r.events, Error) == errors
            && |Logs(r.events, Warning)| == warnings + 1
            && EnqueuedLinks(r.events) == links
  {
    RetryFilters(url, retries, outcomes, attempt);
  }

  /**
   * What such a run logs: one warning per earlier failed attempt on top of the
   * final attempt's own, no error but the final attempt's, and only the final
   * attempt's links handed on.
   */
  lemma {:induction false} NoRetryLogs(url: string, retries: int, outcomes: seq<Outcome>, attempt: nat, k: nat)
    requires attempt <= k < retries <= |outcomes|
    requires forall j :: attempt <= j < k ==> outcomes[j].ConnectionFailure?
    requires !outcomes[k].ConnectionFailure?
    ensures var r := Attempts(url, retries, outcomes, attempt);
            && Logs(r.events, Error) == FinalErrors(url, outcomes[k])
            && |Logs(r.events, Warning)| == k - attempt + FinalWarnings(outcomes[k])
            && EnqueuedLinks(r.events) == HandedOn(outcomes[k])
    decreases k - attempt
  {
    if attempt < k {
      NoRetryLogs(url, retries, outcomes, attempt + 1, k);
      RetriedRunFilters(url, retries, outcomes, attempt,
                        FinalErrors(url, outcomes[k]), k - (attempt + 1) + FinalWarnings(outcomes[k]), HandedOn(outcomes[k]));
    } else {
      SettledRunFilters(url, retries, outcomes, k);
    }
  }

  lemma SuffixOfAppend<T>(a: seq<T>, b: seq<T>, n: nat)
    requires n <= |b|
    ensures (a + b)[|a + b| - n..] == b[|b| - n..]
  {
  }

  /** A failed attempt that is not the last adds an attempt, and no link and no body read, to the later attempts'. */
  lemma RetriedRunReads(url: string, retries: int, outcomes: seq<Outcome>, attempt: nat)
    requires attempt < retries - 1 && retries <= |outcomes|
    requires outcomes[attempt].ConnectionFailure?
    ensures var r := Attempts(url, retries, outcomes, attempt);
            var rest := Attempts(url, retries, outcomes, attempt + 1);
            && attempt + r.attempts - 1 == attempt + 1 + rest.attempts - 1
            && EnqueuedLinks(r.events) == EnqueuedLinks(rest.events)
            && (ReadBody in r.events <==> ReadBody in rest.events)
  {
    RetryFilters(url, retries, outcomes, attempt);
  }

  /** A run that ends with the attempt it starts with hands on that attempt's links, and reads a body only for an HTML page. */
  lemma SettledRunReads(url: string, retries: int, outcomes: seq<Outcome>, k: nat)
    requires k < retries <= |outcomes|
    requires !outcomes[k].ConnectionFailure?
    ensures var r := Attempts(url, retries, outcomes, k);
            && k + r.attempts - 1 == k
            && EnqueuedLinks(r.events) == HandedOn(outcomes[k])
            && (ReadBody in r.events <==> IsHtmlSuccess(outcomes[k]))
  {
    AttemptSettles(url, retries, outcomes, k);
    SettleLinks(url, outcomes[k]);
  }

  /** A run whose only attempt fails to connect hands nothing on and reads nothing. */
  lemma GaveUpRunReads(url: string, retries: int, outcomes: seq<Outcome>, k: nat)
    requires k == retries - 1 && 0 <= k && retries <= |outcomes|
    requires outcomes[k].ConnectionFailure?
    ensures var r := Attempts(url, retries, outcomes, k);
            && k + r.attempts - 1 == k
            && EnqueuedLinks(r.events) == HandedOn(outcomes[k]) == []
            && (ReadBody in r.events <==> IsHtmlSuccess(outcomes[k]))
  {
    GiveUpFilters(url, retries, outcomes, k);
  }

  /** The step of `EnqueuesOnlyHtml` for a failed attempt that is not the last. */
  lemma EnqueuesAfterRetry(url: string, retries: int, outcomes: seq<Outcome>, attempt: nat)
    requires attempt < retries - 1 && retries <= |outcomes|
    requires outcomes[attempt].ConnectionFailure?
    requires var r := Attempts(url, retries, outcomes, attempt + 1);
             EnqueuedLinks(r.events) == HandedOn(outcomes[attempt + 1 + r.attempts - 1])
    ensures var r := Attempts(url, retries, outcomes, attempt);
            EnqueuedLinks(r.events) == HandedOn(outcomes[attempt + r.attempts - 1])
  {
    RetriedRunReads(url, retries, outcomes, attempt);
  }

  /** The step of `ReadsOnlyHtml` for a failed attempt that is not the last. */
  lemma ReadsAfterRetry(url: string, retries: int, outcomes: seq<Outcome>, attempt: nat)
    requires attempt < retries - 1 && retries <= |outcomes|
    requires outcomes[attempt].ConnectionFailure?
    requires var r := Attempts(url, retries, outcomes, attempt + 1);
             ReadBody in r.events <==> IsHtmlSuccess(outcomes[attempt + 1 + r.attempts - 1])
    ensures var r := Attempts(url, retries, outcomes, attempt);
            ReadBody in r.events <==> IsHtmlSuccess(outcomes[attempt + r.attempts - 1])
  {
    RetriedRunReads(url, retries, outcomes, attempt);
  }

  /**
   * The content-type gate: `fetch` hands links on only when its last attempt
   * got an HTML response that passed `raise_for_status`, and then it hands on
   * precisely that response's links.
   */
  lemma {:induction false} EnqueuesOnlyHtml(url: string, retries: int, outcomes: seq<Outcome>, attempt: nat)
    requires attempt < retries <= |outcomes|
    ensures var r := Attempts(url, retries, outcomes, attempt);
            EnqueuedLinks(r.events) == HandedOn(outcomes[attempt + r.attempts - 1])
    decreases retries - attempt
  {
    if !outcomes[attempt].ConnectionFailure? {
      SettledRunReads(url, retries, outcomes, attempt);
    } else if attempt < retries - 1 {
      EnqueuesOnlyHtml(url, retries, outcomes, attempt + 1);
      EnqueuesAfterRetry(url, retries, outcomes, attempt);
    } else {
      GaveUpRunReads(url, retries, outcomes, attempt);
    }
  }

  /** `fetch` reads a response body exactly when its last attempt got an HTML response that passed `raise_for_status`. */
  lemma {:induction false} ReadsOnlyHtml(url: string, retries: int, outcomes: seq<Outcome>, attempt: nat)
    requires attempt < retries <= |outcomes|
    ensures var r := Attempts(url, retries, outcomes, attempt);
            ReadBody in r.events <==> IsHtmlSuccess(outcomes[attempt + r.attempts - 1])
    decreases retries - attempt
  {
    if !outcomes[attempt].ConnectionFailure? {
      SettledRunReads(url, retries, outcomes, attempt);
    } else if attempt < retries - 1 {
      ReadsOnlyHtml(url, retries, outcomes, attempt + 1);
      ReadsAfterRetry(url, retries, outcomes, attempt);
    } else {
      GaveUpRunReads(url, retries, outcomes, attempt);
    }
  }

  /** `fetch` logs at most one error: either giving up after the last failed attempt, or an unhandled exception. */
  lemma {:induction false} AtMostOneError(url: string, retries: int, outcomes: seq<Outcome>, attempt: nat)
    requires retries <= |outcomes|
    ensures |Logs(Attempts(url, retries, outcomes, attempt).events, Error)| <= 1
    decreases retries - attempt
  {
    if attempt < retries {
      if !outcomes[attempt].ConnectionFailure? {
        AttemptSettles(url, retries, outcomes, attempt);
        SettleLogs(url, outcomes[attempt]);
      } else if attempt < retries - 1 {
        RetryFilters(url, retries, outcomes, attempt);
        AtMostOneError(url, retries, outcomes, attempt + 1);
      } else {
        GiveUpFilters(url, retries, outcomes, attempt);
      }
    }
  }
}

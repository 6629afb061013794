/**
 * The fetch scenarios the tests of crawler/crawler.py assert, for the seed
 * "https://example.com/" and the default of three attempts.
 */
module FetchingExamples {
  import opened UrlNorm
  import opened Fetching

  const Seed := "https://example.com/"

  /** A transport that always fails to connect: three warnings, sleeps of 1 and 2 between them, and one final error. */
  lemma RetriesExhaustedExample(outcomes: seq<Outcome>)
    requires DefaultRetries <= |outcomes|
    requires forall k :: 0 <= k < |outcomes| ==> outcomes[k] == ConnectionFailure("Connection error")
    ensures var r := Attempts(Seed, DefaultRetries, outcomes, 0);
            && r.attempts == 3
            && |Logs(r.events, Warning)| == 3
            && Logs(r.events, Error) == [GaveUp(Seed, 3)]
            && Sleeps(r.events) == [1, 2]
  {
    ConnectionFailuresExhaust(Seed, DefaultRetries, outcomes, 0);
    assert Backoffs(0, 2) == [Pow2(0)] + Backoffs(1, 1);
    assert Backoffs(1, 1) == [Pow2(1)] + Backoffs(2, 0);
  }

  /** A 404 raised by `session.get` is logged once as not found, and not retried. */
  lemma NotFoundExample(outcomes: seq<Outcome>)
    requires DefaultRetries <= |outcomes|
    requires outcomes[0] == ResponseError(404, "Not Found")
    ensures Attempts(Seed, DefaultRetries, outcomes, 0) == Run([Log(Warning, NotFound(Seed))], 1)
  {
    AttemptSettles(Seed, DefaultRetries, outcomes, 0);
  }

  /** A 403 raised by `session.get` is logged once with its status and message, and not retried. */
  lemma ForbiddenExample(outcomes: seq<Outcome>)
    requires DefaultRetries <= |outcomes|
    requires outcomes[0] == ResponseError(403, "Forbidden")
    ensures Attempts(Seed, DefaultRetries, outcomes, 0) == Run([Log(Warning, ClientError(403, Seed, "Forbidden"))], 1)
  {
    AttemptSettles(Seed, DefaultRetries, outcomes, 0);
  }

  /** A 503 is a response error like any other: logged once, and not retried. */
  lemma ServerErrorExample(outcomes: seq<Outcome>)
    requires DefaultRetries <= |outcomes|
    requires outcomes[0] == Response(503, "Service Unavailable", "", [])
    ensures Attempts(Seed, DefaultRetries, outcomes, 0) ==
              Run([Log(Warning, ClientError(503, Seed, "Service Unavailable"))], 1)
  {
    AttemptSettles(Seed, DefaultRetries, outcomes, 0);
  }

  /**
   * A response error whose status is not an error status, such as the status
   * 0 of `TooManyRedirects`, is still logged once as a client error and not
   * retried.
   */
  lemma TooManyRedirectsExample(outcomes: seq<Outcome>, message: string)
    requires DefaultRetries <= |outcomes|
    requires outcomes[0] == ResponseError(0, message)
    ensures Attempts(Seed, DefaultRetries, outcomes, 0) == Run([Log(Warning, ClientError(0, Seed, message))], 1)
  {
    AttemptSettles(Seed, DefaultRetries, outcomes, 0);
  }

  /** Any other exception is logged once as an error, and not retried. */
  lemma UnhandledExample(outcomes: seq<Outcome>)
    requires DefaultRetries <= |outcomes|
    requires outcomes[0] == OtherFailure("Unhandled error occurred")
    ensures Attempts(Seed, DefaultRetries, outcomes, 0) ==
              Run([Log(Error, Unhandled(Seed, "Unhandled error occurred"))], 1)
  {
    AttemptSettles(Seed, DefaultRetries, outcomes, 0);
  }

  /** A JSON response is skipped: its body is not read and no link is handed on. */
  lemma NonHtmlExample(outcomes: seq<Outcome>, links: seq<string>)
    requires DefaultRetries <= |outcomes|
    requires outcomes[0] == Response(200, "OK", "application/json", links)
    ensures Attempts(Seed, DefaultRetries, outcomes, 0) == Run([Log(Info, Skipping(Seed))], 1)
  {
    JsonContentType(outcomes[0].contentType);
    AttemptSettles(Seed, DefaultRetries, outcomes, 0);
  }

  /** An HTML response is visited: its body is read once and its links are handed on. */
  lemma HtmlExample(outcomes: seq<Outcome>, links: seq<string>)
    requires DefaultRetries <= |outcomes|
    requires outcomes[0] == Response(200, "OK", "text/html; charset=utf-8", links)
    ensures Attempts(Seed, DefaultRetries, outcomes, 0) ==
              Run([Log(Info, Visiting(Seed)), ReadBody, Enqueue(links)], 1)
  {
    HtmlContentType(outcomes[0].contentType);
    AttemptSettles(Seed, DefaultRetries, outcomes, 0);
  }

  /** Two of the log lines above, spelled as the tests expect them. */
  lemma NotFoundText()
    ensures Text(NotFound(Seed)) == "URL not found: https://example.com/"
  {
  }

  lemma SkippingText()
    ensures Text(Skipping(Seed)) == "Skipping non-HTML content: https://example.com/"
  {
  }

  /** A lower-case content type that starts with "text/html" passes the gate. */
  lemma HtmlPrefix(ct: string)
    requires IsLowerCase(ct) && StartsWith(ct, "text/html")
    ensures IsHtml(ct)
  {
    LowerFixpoint(ct);
  }

  /** A lower-case content type without an 'x' cannot contain "text/html". */
  lemma NoHtmlWithoutX(ct: string)
    requires IsLowerCase(ct) && 'x' !in ct
    ensures !IsHtml(ct)
  {
    LowerFixpoint(ct);
    if IsHtml(ct) {
      ContainsChars(ct, "text/html", 'x');
    }
  }

  /** The HTML content type of the tests passes the gate. */
  lemma HtmlContentType(ct: string)
    requires ct == "text/html; charset=utf-8"
    ensures IsHtml(ct)
  {
    assert ct[..9] == "text/html";
    HtmlPrefix(ct);
  }

  /** The JSON content type of the tests does not. */
  lemma JsonContentType(ct: string)
    requires ct == "application/json"
    ensures !IsHtml(ct)
  {
    assert IsLowerCase(ct) && 'x' !in ct;
    NoHtmlWithoutX(ct);
  }
}

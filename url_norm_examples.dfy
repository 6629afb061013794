/** The examples the tests of crawler/utils.py assert, given what `urlparse` returns for each input. */
module UrlNormExamples {
  import opened UrlNorm

  /** The tests' first example: an empty path becomes "/". */
  lemma NormalizeExampleRoot(parse: string -> Url)
    requires parse("https://example.com") == Url("https", "example.com", "", "", "", "")
    ensures NormalizeUrl(parse, "https://example.com") == "https://example.com/"
  {
    ExampleHost();
    assert Normalize(parse("https://example.com")) == Url("https", "example.com", "/", "", "", "");
    RenderCanonical("example.com", "/");
    Spelled();
  }

  /** The tests' second example: "http" is forced to "https". */
  lemma NormalizeExampleHttp(parse: string -> Url)
    requires parse("http://example.com/some/page") == Url("http", "example.com", "/some/page", "", "", "")
    ensures NormalizeUrl(parse, "http://example.com/some/page") == "https://example.com/some/page"
  {
    ExampleRooted(parse, "http://example.com/some/page", "/some/page");
    Spelled();
  }

  /** The tests' third example: the host is lowered, the path keeps its case, the query is dropped. */
  lemma NormalizeExampleQuery(parse: string -> Url)
    requires parse("https://EXAMPLE.COM/TEST?query=string") == Url("https", "EXAMPLE.COM", "/TEST", "", "query=string", "")
    ensures NormalizeUrl(parse, "https://EXAMPLE.COM/TEST?query=string") == "https://example.com/TEST"
  {
    ExampleRooted(parse, "https://EXAMPLE.COM/TEST?query=string", "/TEST");
    Spelled();
  }

  /** A URL on the examples' host with a rooted path normalises to "https://example.com" and the path. */
  lemma ExampleRooted(parse: string -> Url, url: string, path: string)
    requires parse(url).netloc in {"example.com", "EXAMPLE.COM"}
    requires parse(url).path == path && path != "" && path[0] == '/'
    ensures NormalizeUrl(parse, url) == "https://" + "example.com" + path
  {
    ExampleHost();
    NormalizeUrlRooted(parse, url);
  }

  /** The examples' expected strings, spelled as scheme, host and path. */
  lemma Spelled()
    ensures "https://" + "example.com" + "/" == "https://example.com/"
    ensures "https://" + "example.com" + "/some/page" == "https://example.com/some/page"
    ensures "https://" + "example.com" + "/TEST" == "https://example.com/TEST"
  {
  }

  /** The host of the tests' examples, in both cases, lowers to "example.com". */
  lemma ExampleHost()
    ensures Lower("example.com") == "example.com"
    ensures Lower("EXAMPLE.COM") == "example.com"
  {
    LowerHost("example.com");
    LowerHost("EXAMPLE.COM");
  }

  lemma LowerHost(host: string)
    requires host in {"example.com", "EXAMPLE.COM"}
    ensures Lower(host) == "example.com"
  {
    LowerPointwise(host, "example.com");
  }
}

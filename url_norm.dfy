/**
 * The URL canonicaliser `normalize_url` of crawler/utils.py.
 *
 * `urlparse` and `urlunparse` belong to Python's standard library: the
 * canonicaliser is modelled on the component record that `urlparse` returns,
 * and `urlparse` itself is a parameter `parse` wherever a string is parsed.
 */
module UrlNorm {

  /** The six components of a parsed URL; a port or user information stays inside `netloc`. */
  datatype Url = Url(scheme: string, netloc: string, path: string, params: string, query: string, fragment: string)

  predicate IsUpper(c: char) {
    'A' <= c <= 'Z'
  }

  /** `str.lower` on one character, for ASCII letters. */
  function LowerChar(c: char): char {
    if IsUpper(c) then (c as int + 32) as char else c
  }

  /** `str.lower`, for ASCII letters: every letter is lowered and nothing else changes. */
  function Lower(s: string): (r: string)
    ensures |r| == |s|
    ensures forall i :: 0 <= i < |s| ==> r[i] == LowerChar(s[i])
    ensures forall i :: 0 <= i < |r| ==> !IsUpper(r[i])
  {
    if s == [] then [] else [LowerChar(s[0])] + Lower(s[1..])
  }

  predicate IsLowerCase(s: string) {
    forall i :: 0 <= i < |s| ==> !IsUpper(s[i])
  }

  /** Two host names that differ only in the case of ASCII letters. */
  predicate EqualIgnoringCase(a: string, b: string) {
    |a| == |b| && forall i :: 0 <= i < |a| ==> LowerChar(a[i]) == LowerChar(b[i])
  }

  /** The shape every canonical URL has. */
  predicate IsNormalized(u: Url) {
    && u.scheme == "https"
    && IsLowerCase(u.netloc)
    && u.path != ""
    && u.params == "" && u.query == "" && u.fragment == ""
  }

  /** The path a URL is crawled under: an empty path means the root. */
  function EffectivePath(path: string): (r: string)
    ensures r != ""
  {
    if path == "" then "/" else path
  }

  /**
   * `normalize_url` on a parsed URL: the scheme becomes "https", the host is
   * lowered, an empty path becomes "/", and params, query and fragment are
   * dropped.
   */
  function Normalize(u: Url): (r: Url)
    ensures IsNormalized(r)
  {
    Url("https", Lower(u.netloc), EffectivePath(u.path), "", "", "")
  }

  predicate StartsWith(s: string, prefix: string) {
    |prefix| <= |s| && s[..|prefix|] == prefix
  }

  /**
   * `urlunparse`, for a scheme that carries a network location (as "https"
   * does): params are joined to the path with ';', the network location is
   * introduced by "//", the path gets a leading '/' when it lacks one, and
   * query and fragment are appended with '?' and '#'.
   */
  function Render(u: Url): string {
    var path := if u.params == "" then u.path else u.path + ";" + u.params;
    var hier :=
      if u.netloc != "" || (u.scheme != "" && !StartsWith(path, "//")) then
        "//" + u.netloc + (if path != "" && path[0] != '/' then "/" + path else path)
      else path;
    var withScheme := if u.scheme == "" then hier else u.scheme + ":" + hier;
    var withQuery := if u.query == "" then withScheme else withScheme + "?" + u.query;
    if u.fragment == "" then withQuery else withQuery + "#" + u.fragment
  }

  /** `normalize_url(url)`: parse, canonicalise the components, unparse. The result always starts with "https://". */
  function NormalizeUrl(parse: string -> Url, url: string): (r: string)
    ensures StartsWith(r, "https://")
  {
    var n := Normalize(parse(url));
    assert n.scheme == "https" && n.params == "" && n.query == "" && n.fragment == "";
    Render(n)
  }

  /** Lowering is the identity exactly on strings without upper-case letters. */
  lemma LowerFixpoint(s: string)
    ensures Lower(s) == s <==> IsLowerCase(s)
  {
    if IsLowerCase(s) {
      forall i | 0 <= i < |s| ensures Lower(s)[i] == s[i] {
        assert !IsUpper(s[i]);
      }
    }
  }

  /** Lowering twice is lowering once. */
  lemma {:induction false} LowerIdempotent(s: string)
    ensures Lower(Lower(s)) == Lower(s)
  {
    if s != [] {
      LowerIdempotent(s[1..]);
      assert Lower(s) == [LowerChar(s[0])] + Lower(s[1..]);
    }
  }

  /** Two strings lower to the same string exactly when they differ only in letter case. */
  lemma LowerEqualIffEqualIgnoringCase(a: string, b: string)
    ensures Lower(a) == Lower(b) <==> EqualIgnoringCase(a, b)
  {
    if EqualIgnoringCase(a, b) {
      assert forall i :: 0 <= i < |a| ==> Lower(a)[i] == Lower(b)[i];
    }
    if Lower(a) == Lower(b) {
      assert forall i :: 0 <= i < |a| ==> LowerChar(a[i]) == Lower(a)[i] == Lower(b)[i] == LowerChar(b[i]);
    }
  }

  /** Canonical URLs are exactly the fixpoints of the canonicaliser. */
  lemma NormalizeFixpoint(u: Url)
    ensures Normalize(u) == u <==> IsNormalized(u)
  {
    LowerFixpoint(u.netloc);
  }

  /** Canonicalising twice is canonicalising once. */
  lemma NormalizeIdempotent(u: Url)
    ensures Normalize(Normalize(u)) == Normalize(u)
  {
    NormalizeFixpoint(Normalize(u));
  }

  /**
   * Two parsed URLs are the same crawl target exactly when their hosts differ
   * only in letter case and their paths agree once an empty path is read as
   * "/": scheme, params, query and fragment play no part.
   */
  lemma SameTarget(u: Url, v: Url)
    ensures Normalize(u) == Normalize(v) <==>
              EqualIgnoringCase(u.netloc, v.netloc) && EffectivePath(u.path) == EffectivePath(v.path)
  {
    LowerEqualIffEqualIgnoringCase(u.netloc, v.netloc);
  }

  /**
   * Idempotence on strings: when parsing a canonical URL gives back its
   * components, as `urlparse` does on the strings this canonicaliser
   * produces, normalising the result again changes nothing.
   */
  lemma NormalizeUrlIdempotent(parse: string -> Url, url: string)
    requires parse(NormalizeUrl(parse, url)) == Normalize(parse(url))
    ensures NormalizeUrl(parse, NormalizeUrl(parse, url)) == NormalizeUrl(parse, url)
  {
    NormalizeIdempotent(parse(url));
  }

  /** A URL with a host and a rooted path is written out as "https://", the lowered host, and the path. */
  lemma NormalizeUrlRooted(parse: string -> Url, url: string)
    requires parse(url).netloc != "" && parse(url).path != "" && parse(url).path[0] == '/'
    ensures NormalizeUrl(parse, url) == "https://" + Lower(parse(url).netloc) + parse(url).path
  {
    RenderCanonical(Lower(parse(url).netloc), parse(url).path);
  }

  /** Lowering gives `t` when `t` holds the lowered characters of `s`. */
  lemma LowerPointwise(s: string, t: string)
    requires |s| == |t| && forall i :: 0 <= i < |s| ==> LowerChar(s[i]) == t[i]
    ensures Lower(s) == t
  {
  }

  /** How a canonical URL with a host and a rooted path is written out. */
  lemma RenderCanonical(netloc: string, path: string)
    requires netloc != "" && path != "" && path[0] == '/'
    ensures Render(Url("https", netloc, path, "", "", "")) == "https://" + netloc + path
  {
  }
}

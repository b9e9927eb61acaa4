/**
 * The link filter of the documentation crawler (`should_crawl_link`): a link
 * found on a page is followed only when it lies under the base URL and
 * contains one of the inclusion patterns, the caller's or a fixed default set.
 */
module LinkFilter {
  import opened Wrappers

  /** The inclusion patterns used when the caller gives none (or an empty list). */
  const DefaultPatterns: seq<string> := ["/api/", "/guide/", "/docs/", "/reference/", "/tutorial/"]

  /** Python's `s.startswith(prefix)`: a raw character prefix, no URL normalisation. */
  predicate StartsWith(s: string, prefix: string)
    ensures StartsWith(s, prefix) <==> |prefix| <= |s| && s[..|prefix|] == prefix
  {
    prefix <= s
  }

  /** Reference meaning of Python's `sub in s`: `sub` starts at some offset of `s`. */
  ghost predicate OccursIn(sub: string, s: string) {
    exists i :: 0 <= i <= |s| && sub <= s[i..]
  }

  /** An occurrence that is not at offset 0 is an occurrence in the tail. */
  lemma {:induction false} OccursInTail(sub: string, s: string)
    requires s != [] && !(sub <= s)
    ensures OccursIn(sub, s) <==> OccursIn(sub, s[1..])
  {
    if OccursIn(sub, s) {
      var i :| 0 <= i <= |s| && sub <= s[i..];
      assert i != 0;
      assert s[1..][i - 1..] == s[i..];
    }
    if OccursIn(sub, s[1..]) {
      var i :| 0 <= i <= |s[1..]| && sub <= s[1..][i..];
      assert s[1..][i..] == s[i + 1..];
    }
  }

  /** Python's `sub in s`, computed by trying each offset of `s` from the left. */
  function Contains(s: string, sub: string): (r: bool)
    ensures r <==> OccursIn(sub, s)
    decreases |s|
  {
    if sub <= s then
      assert s[0..] == s;
      true
    else if s == [] then
      false
    else
      OccursInTail(sub, s);
      Contains(s[1..], sub)
  }

  /** Python's `any(pattern in link for pattern in patterns)`. */
  function AnyOccurs(patterns: seq<string>, link: string): (r: bool)
    ensures r <==> exists p :: p in patterns && OccursIn(p, link)
  {
    if patterns == [] then false
    else Contains(link, patterns[0]) || AnyOccurs(patterns[1..], link)
  }

  /**
   * `should_crawl_link(link, base_url, patterns)`. `patterns` is `None` or a
   * list; Python's `if patterns:` treats an empty list like `None`.
   */
  function ShouldCrawlLink(link: string, baseUrl: string, patterns: Option<seq<string>>): (r: bool)
    ensures r ==> StartsWith(link, baseUrl)
  {
    if !StartsWith(link, baseUrl) then false
    else if patterns.Some? && patterns.value != [] then AnyOccurs(patterns.value, link)
    else AnyOccurs(DefaultPatterns, link)
  }

  /** With a non-empty pattern list: in scope and some caller pattern occurs in the link. */
  lemma ShouldCrawlLinkWithPatterns(link: string, baseUrl: string, patterns: seq<string>)
    requires patterns != []
    ensures ShouldCrawlLink(link, baseUrl, Some(patterns))
        <==> StartsWith(link, baseUrl) && exists p :: p in patterns && OccursIn(p, link)
  {
  }

  /** With no patterns (`None` or an empty list): in scope and one of the five defaults occurs in the link. */
  lemma ShouldCrawlLinkWithDefaults(link: string, baseUrl: string, patterns: Option<seq<string>>)
    requires patterns.None? || patterns.value == []
    ensures ShouldCrawlLink(link, baseUrl, patterns)
        <==> StartsWith(link, baseUrl) && exists p :: p in DefaultPatterns && OccursIn(p, link)
    ensures ShouldCrawlLink(link, baseUrl, patterns) == ShouldCrawlLink(link, baseUrl, Some(DefaultPatterns))
  {
  }

  /** A pattern holding a character that `s` lacks does not occur in `s`. */
  lemma AbsentCharacter(sub: string, s: string, c: char)
    requires c in sub && c !in s
    ensures !OccursIn(sub, s)
  {
  }

  /** A non-empty pattern list replaces the defaults: a link that only matches a default is refused. */
  lemma CallerPatternsReplaceDefaults()
    ensures ShouldCrawlLink("https://ex.org/docs/api/x", "https://ex.org/docs", None)
    ensures !ShouldCrawlLink("https://ex.org/docs/api/x", "https://ex.org/docs", Some(["/guide/"]))
  {
    assert OccursIn("/api/", "https://ex.org/docs/api/x") by {
      assert "/api/" <= "https://ex.org/docs/api/x"[19..];
    }
    AbsentCharacter("/guide/", "https://ex.org/docs/api/x", 'u');
    ShouldCrawlLinkWithPatterns("https://ex.org/docs/api/x", "https://ex.org/docs", ["/guide/"]);
    ShouldCrawlLinkWithDefaults("https://ex.org/docs/api/x", "https://ex.org/docs", None);
  }

  /** No default pattern occurs in the site root `https://ex.org/`. */
  lemma NoDefaultPatternInSiteRoot()
    ensures !OccursIn("/api/", "https://ex.org/") && !OccursIn("/guide/", "https://ex.org/")
    ensures !OccursIn("/docs/", "https://ex.org/") && !OccursIn("/reference/", "https://ex.org/")
    ensures !OccursIn("/tutorial/", "https://ex.org/")
  {
    var s := "https://ex.org/";
    AbsentCharacter("/api/", s, 'a');
    AbsentCharacter("/guide/", s, 'u');
    AbsentCharacter("/docs/", s, 'd');
    AbsentCharacter("/reference/", s, 'f');
    AbsentCharacter("/tutorial/", s, 'u');
  }

  /** Under the default patterns the base URL itself is refused when no default pattern occurs in it. */
  lemma BaseUrlNotAlwaysEligible()
    ensures !ShouldCrawlLink("https://ex.org/", "https://ex.org/", None)
  {
    NoDefaultPatternInSiteRoot();
    assert forall p :: p in DefaultPatterns ==> !OccursIn(p, "https://ex.org/");
    ShouldCrawlLinkWithDefaults("https://ex.org/", "https://ex.org/", None);
  }
}

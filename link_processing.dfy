/** The link processor of the crawler (class LinkProcessor of externalLib/crawler.py):
    pure tests and rewrites of an anchor's href against the crawl domain. */
module LinkProcessing {
  import opened Wrappers

  /** `^/`: the href is rooted at the domain. */
  predicate IsInternalRelativeLink(link: string) {
    |link| > 0 && link[0] == '/'
  }

  /** `^domain`: the link starts with the domain, read as a literal prefix. */
  predicate IsInternalAbsoluteLink(domain: string, link: string) {
    domain <= link
  }

  /** `\?`: the link carries a query and is treated as dynamic. */
  predicate IsDynamicLink(link: string) {
    '?' in link
  }

  /** Position of the last c in s, if s holds one. */
  function LastIndexOf(s: string, c: char): (r: Option<nat>)
    ensures r.None? <==> c !in s
    ensures r.Some? ==> r.value < |s| && s[r.value] == c && c !in s[r.value + 1..]
  {
    if s == [] then None
    else if s[|s| - 1] == c then Some(|s| - 1)
    else
      assert s == s[..|s| - 1] + [s[|s| - 1]];
      var r := LastIndexOf(s[..|s| - 1], c);
      assert r.Some? ==> s[r.value + 1..] == s[..|s| - 1][r.value + 1..] + [s[|s| - 1]];
      r
  }

  /** `re.sub(r'(#[^#]+)$', '', link)`: the last '#' goes, with everything after it,
      when at least one character follows it; a bare trailing '#' stays. */
  function SanitizePageSectionInLink(link: string): (r: string)
    ensures r <= link
    ensures r != link ==> |link| - |r| >= 2 && link[|r|] == '#' && '#' !in link[|r| + 1..]
    ensures r == link ==> '#' !in link || link[|link| - 1] == '#'
  {
    match LastIndexOf(link, '#')
    case None => link
    case Some(p) => if p + 1 < |link| then link[..p] else link
  }

  /** The crawlable link an href stands for, or None when it is rejected.
      The fragment is stripped first; a '/'-rooted result is prefixed with the domain;
      then links outside the domain and links with a '?' are rejected. */
  function GetFinalLink(domain: string, link: string, parentLink: string): (r: Option<string>)
    ensures r.Some? ==> domain <= r.value && '?' !in r.value
    ensures var s := SanitizePageSectionInLink(link);
      r.Some? <==> '?' !in s && (if IsInternalRelativeLink(s) then '?' !in domain else domain <= s)
    ensures var s := SanitizePageSectionInLink(link);
      r.Some? ==> r.value == if IsInternalRelativeLink(s) then domain + s else s
  {
    var sanitized := SanitizePageSectionInLink(link);
    var absolute := if IsInternalRelativeLink(sanitized) then domain + sanitized else sanitized;
    if !IsInternalAbsoluteLink(domain, absolute) then None
    else if IsDynamicLink(absolute) then None
    else Some(absolute)
  }

  /** A final '#' followed by a '#'-free, non-empty section is removed, and nothing else. */
  lemma {:induction false} SanitizeStripsSection(base: string, section: string)
    requires section != [] && '#' !in section
    ensures SanitizePageSectionInLink(base + "#" + section) == base
  {
    var link := base + "#" + section;
    var r := SanitizePageSectionInLink(link);
    assert link[|base|] == '#';
    assert link[|link| - 1] == section[|section| - 1];
    assert r != link;
  }

  /** A bare trailing '#' is left in place. */
  lemma {:induction false} SanitizeKeepsBareHash(base: string)
    ensures SanitizePageSectionInLink(base + "#") == base + "#"
  {
  }

  /** Only the section after the last '#' is removed. */
  lemma {:induction false} SanitizeExamples()
    ensures SanitizePageSectionInLink("/wiki/Wikipedia:Verifiability" + "#" + "Burden_of_evidence")
         == "/wiki/Wikipedia:Verifiability"
    ensures SanitizePageSectionInLink("a#b" + "#" + "c") == "a#b"
    ensures SanitizePageSectionInLink("/wiki/Database" + "#") == "/wiki/Database" + "#"
  {
    SanitizeStripsSection("/wiki/Wikipedia:Verifiability", "Burden_of_evidence");
    SanitizeStripsSection("a#b", "c");
    SanitizeKeepsBareHash("/wiki/Database");
  }

  /** A link without '#' is left as it is. */
  lemma {:induction false} SanitizeWithoutHash(link: string)
    requires '#' !in link
    ensures SanitizePageSectionInLink(link) == link
  {
  }

  /** The referring page plays no part: a bare relative href is never resolved against it. */
  lemma {:induction false} FinalLinkIgnoresParent(domain: string, link: string, parent1: string, parent2: string)
    ensures GetFinalLink(domain, link, parent1) == GetFinalLink(domain, link, parent2)
  {
  }

  /** The section is stripped before the '?' test, so a '?' inside it does not reject the link. */
  lemma {:induction false} SectionStrippedBeforeFiltering(domain: string, path: string, section: string, parent: string)
    requires IsInternalRelativeLink(path) && '?' !in domain && '?' !in path
    requires section != [] && '#' !in section
    ensures GetFinalLink(domain, path + "#" + section, parent) == Some(domain + path)
  {
    SanitizeStripsSection(path, section);
  }

  /** A section link on the English Wikipedia is made absolute without its section. */
  lemma {:induction false} FinalLinkAcceptExample()
    ensures GetFinalLink("https://en.wikipedia.org", "/wiki/Wikipedia:Verifiability" + "#" + "Burden_of_evidence", "")
         == Some("https://en.wikipedia.org" + "/wiki/Wikipedia:Verifiability")
  {
    SectionStrippedBeforeFiltering("https://en.wikipedia.org", "/wiki/Wikipedia:Verifiability", "Burden_of_evidence", "");
  }

  /** A bare relative href is not resolved against its page, and is rejected. */
  lemma {:induction false} FinalLinkRejectsBareRelative()
    ensures GetFinalLink("https://en.wikipedia.org", "Database", "https://en.wikipedia.org/wiki/Database") == None
  {
    SanitizeWithoutHash("Database");
    assert "https://en.wikipedia.org"[0] != "Database"[0];
  }

  /** A link with a query is rejected. */
  lemma {:induction false} FinalLinkRejectsDynamic()
    ensures GetFinalLink("https://en.wikipedia.org", "/w/index.php" + "?title=Database", "") == None
  {
    SanitizeWithoutHash("/w/index.php" + "?title=Database");
    assert ("/w/index.php" + "?title=Database")[12] == '?';
  }

  /** A link to another site is rejected. */
  lemma {:induction false} FinalLinkRejectsOtherSite()
    ensures GetFinalLink("https://en.wikipedia.org", "https://www.wikidata.org/wiki/Q8513", "") == None
  {
    SanitizeWithoutHash("https://www.wikidata.org/wiki/Q8513");
    assert "https://en.wikipedia.org"[8] != "https://www.wikidata.org/wiki/Q8513"[8];
  }
}

/**
 * The choice of a product's homepage among the external links of its Product Hunt
 * launch page (`ProductHuntClient.resolve_homepage_url`): each link is filtered, its
 * host is scored against the product's name and slug, and the best-scoring host is
 * returned when the match is confident enough.
 */
module Homepage {
  import opened Wrappers
  import opened Strings
  import opened Urls
  import opened ProductHunt

  // ---------------------------------------------------------------------------
  // Match keys

  /** The forms of the product's name and slug that hosts are compared with. */
  datatype MatchKeys = MatchKeys(name: string, slug: string, nameNoNumbers: string, slugNoNumbers: string)

  /**
   * The name lower-cased without spaces and hyphens, the slug (none counts as empty)
   * lower-cased without hyphens, and both again without digits.
   */
  function KeysOf(name: string, slug: Option<string>): MatchKeys {
    var n := RemoveAll(RemoveAll(Lower(name), " "), "-");
    var s := RemoveAll(Lower(slug.GetOr("")), "-");
    MatchKeys(n, s, DropDigits(n), DropDigits(s))
  }

  /** A key: no upper-case letter, and none of the characters in `gone`. */
  predicate KeyClean(s: string, gone: set<char>) {
    forall i :: 0 <= i < |s| ==> !('A' <= s[i] <= 'Z') && s[i] !in gone
  }

  /**
   * The keys are the lower-cased name and slug with the separators dropped, and the
   * digit-free variants are those keys with their digits dropped.
   */
  lemma KeysOfShape(name: string, slug: Option<string>)
    ensures KeysOf(name, slug).name == Without(Lower(name), {' ', '-'})
    ensures KeysOf(name, slug).slug == Without(Lower(slug.GetOr("")), {'-'})
    ensures KeyClean(KeysOf(name, slug).name, {' ', '-'})
    ensures KeyClean(KeysOf(name, slug).slug, {'-'})
    ensures KeyClean(KeysOf(name, slug).nameNoNumbers, {' ', '-', '0', '1', '2', '3', '4', '5', '6', '7', '8', '9'})
    ensures KeyClean(KeysOf(name, slug).slugNoNumbers, {'-', '0', '1', '2', '3', '4', '5', '6', '7', '8', '9'})
  {
    var low := Lower(name);
    RemoveCharIsWithout(low, ' ');
    RemoveCharIsWithout(Without(low, {' '}), '-');
    WithoutTwice(low, {' '}, {'-'});
    assert {' '} + {'-'} == {' ', '-'};
    RemoveCharIsWithout(Lower(slug.GetOr("")), '-');
    var k := KeysOf(name, slug);
    LowerKeyClean(name, {' ', '-'});
    LowerKeyClean(slug.GetOr(""), {'-'});
    DropDigitsKeepsClean(k.name, {' ', '-'});
    DropDigitsKeepsClean(k.slug, {'-'});
  }

  lemma LowerKeyClean(s: string, gone: set<char>)
    ensures KeyClean(Without(Lower(s), gone), gone)
  {
    WithoutFrom(Lower(s), gone);
    LowerHasNoUpper(s);
  }

  lemma {:induction false} DropDigitsKeepsClean(s: string, gone: set<char>)
    requires KeyClean(s, gone)
    ensures KeyClean(DropDigits(s), gone + {'0', '1', '2', '3', '4', '5', '6', '7', '8', '9'})
  {
    if s != [] {
      DropDigitsKeepsClean(s[1..], gone);
      var r := DropDigits(s[1..]);
      var head := if IsDigit(s[0]) then [] else [s[0]];
      assert DropDigits(s) == head + r;
      forall i | 0 <= i < |head + r|
        ensures (head + r)[i] !in gone + {'0', '1', '2', '3', '4', '5', '6', '7', '8', '9'}
      {
        if i >= |head| {
          assert (head + r)[i] == r[i - |head|];
        }
      }
    }
  }

  // ---------------------------------------------------------------------------
  // Scores

  /** The score of a host base: the first rule of the ladder that applies. */
  function Score(base: string, k: MatchKeys): int {
    if base == k.slug || base == k.name then 1000
    else if base == k.slugNoNumbers || base == k.nameNoNumbers then 900
    else if |k.slug| > 3 && Contains(base, k.slug) then 500
    else if |k.nameNoNumbers| > 3 && Contains(base, k.nameNoNumbers) then 400
    else if |base| > 3 && Contains(k.slug, base) then 200
    else if |base| > 3 && Contains(k.nameNoNumbers, base) then 150
    else 1
  }

  /** Some rule relates the host base to the product: an equality or a long enough containment. */
  predicate Related(base: string, k: MatchKeys) {
    || base in [k.slug, k.name, k.slugNoNumbers, k.nameNoNumbers]
    || (|k.slug| > 3 && Contains(base, k.slug))
    || (|k.nameNoNumbers| > 3 && Contains(base, k.nameNoNumbers))
    || (|base| > 3 && (Contains(k.slug, base) || Contains(k.nameNoNumbers, base)))
  }

  /**
   * Scores are the ladder's values; a score reaches the confidence floor of 100 exactly
   * when some rule relates the host to the product, and an exact match always scores 1000.
   */
  lemma ScoreLadder(base: string, k: MatchKeys)
    ensures Score(base, k) in {1000, 900, 500, 400, 200, 150, 1}
    ensures Score(base, k) >= 100 <==> Related(base, k)
    ensures Score(base, k) == 1000 <==> base == k.slug || base == k.name
  {
  }

  // ---------------------------------------------------------------------------
  // Candidates

  /** A scored candidate homepage. Python orders these pairs by score, then by URL. */
  datatype Candidate = Candidate(score: int, url: string)

  /** Hosts that are never a product's homepage. */
  const SkipDomains: seq<string> := [
    "schema.org", "w3.org", "google.com", "googletagmanager.com",
    "facebook.com", "twitter.com", "x.com", "linkedin.com",
    "youtube.com", "youtu.be", "instagram.com", "github.com", "cloudflare.com",
    "cloudflareinsights.com", "segment.com", "imgix.net", "lu.ma",
    "fonts.googleapis.com", "fonts.gstatic.com", "segment-cdn.producthunt.com",
    "producthunt.app.link", "apps.apple.com", "play.google.com",
    "itunes.apple.com", "appstore.com", "onelink.me", "branch.io",
    "adjust.com", "app.link", "appsto.re",
    "help.producthunt.com", "ph-static.imgix.net", "ph-files.imgix.net",
    "ph-avatars.imgix.net"]

  /** Path fragments that mark a link to an asset rather than a page. */
  const AssetExtensions: seq<string> := [".png", ".jpg", ".svg", ".gif", ".css", ".js"]

  /** `any(sub in s for sub in subs)`. */
  predicate ContainsAny(s: string, subs: seq<string>) {
    exists i :: 0 <= i < |subs| && Contains(s, subs[i])
  }

  /** The host a candidate stands for: the lower-cased network location without "www.". */
  function CleanDomain(url: string): string {
    RemoveAll(Lower(SplitUrl(url).netloc), "www.")
  }

  /**
   * The body of the loop over the external URLs: a link on a skipped host or to an asset
   * is dropped; any other becomes "https://" and its cleaned host, scored by the part of
   * the host before its first '.'.
   */
  function CandidateOf(url: string, k: MatchKeys): (r: Option<Candidate>)
    ensures r.None? <==> ContainsAny(Lower(SplitUrl(url).netloc), SkipDomains)
                         || ContainsAny(Lower(SplitUrl(url).path), AssetExtensions)
    ensures r.Some? ==> r.value.url == "https://" + CleanDomain(url)
    ensures r.Some? ==> r.value.score == Score(BeforeFirst(CleanDomain(url), "."), k)
  {
    var parts := SplitUrl(url);
    var domain := Lower(parts.netloc);
    if ContainsAny(domain, SkipDomains) then None
    else if ContainsAny(Lower(parts.path), AssetExtensions) then None
    else
      var clean := RemoveAll(domain, "www.");
      Some(Candidate(Score(BeforeFirst(clean, "."), k), "https://" + clean))
  }

  /**
   * For a well-formed link "scheme://host/path?query" to a page on a host that is not
   * skipped, the candidate is the host alone: scheme, path and query are dropped.
   */
  lemma CandidateOfLink(scheme: string, host: string, path: string, tail: string, k: MatchKeys)
    requires IsScheme(scheme) && Plain(scheme) && Plain(host) && Plain(path) && Plain(tail)
    requires Avoids(host, {'/', '?', '#'}) && (path == [] || path[0] == '/') && Avoids(path, {'?', '#'})
    requires IsTail(tail)
    requires !ContainsAny(host, SkipDomains) && !ContainsAny(path, AssetExtensions)
    ensures CandidateOf(scheme + "://" + host + path + tail, k)
            == Some(Candidate(Score(BeforeFirst(RemoveAll(host, "www."), "."), k), "https://" + RemoveAll(host, "www.")))
  {
    var url := scheme + "://" + host + path + tail;
    SplitUrlOf(scheme, host, path, tail);
    PlainLower(host);
    PlainLower(path);
    assert Lower(SplitUrl(url).netloc) == host;
    assert Lower(SplitUrl(url).path) == path;
  }

  /** The candidates of `urls`, in order. */
  function Candidates(urls: seq<string>, k: MatchKeys): (r: seq<Candidate>)
    ensures |r| <= |urls|
  {
    if urls == [] then []
    else
      var c := CandidateOf(urls[|urls| - 1], k);
      Candidates(urls[..|urls| - 1], k) + (if c.Some? then [c.value] else [])
  }

  /** Every candidate comes from one of the links, scored as that link's host is. */
  lemma {:induction false} CandidatesFrom(urls: seq<string>, k: MatchKeys)
    ensures forall c :: c in Candidates(urls, k) ==> exists u :: u in urls && CandidateOf(u, k) == Some(c)
  {
    if urls != [] {
      var init := urls[..|urls| - 1];
      CandidatesFrom(init, k);
      forall c | c in Candidates(urls, k)
        ensures exists u :: u in urls && CandidateOf(u, k) == Some(c)
      {
        if c in Candidates(init, k) {
          var u :| u in init && CandidateOf(u, k) == Some(c);
          assert u in urls;
        } else {
          assert CandidateOf(urls[|urls| - 1], k) == Some(c);
        }
      }
    }
  }

  /** The loop `for url in external_urls`, appending each link's candidate. */
  method CollectCandidates(urls: seq<string>, k: MatchKeys) returns (cands: seq<Candidate>)
    ensures cands == Candidates(urls, k)
  {
    cands := [];
    var i := 0;
    while i < |urls|
      invariant 0 <= i <= |urls|
      invariant cands == Candidates(urls[..i], k)
    {
      assert urls[..i + 1][..i] == urls[..i];
      var c := CandidateOf(urls[i], k);
      if c.Some? {
        cands := cands + [c.value];
      }
      i := i + 1;
    }
    assert urls[..i] == urls;
  }

  // ---------------------------------------------------------------------------
  // Ordering candidates

  /** Python's `a < b` on strings: code point by code point, a proper prefix first. */
  predicate StrLt(a: string, b: string) {
    if a == [] then b != []
    else if b == [] then false
    else if a[0] != b[0] then a[0] < b[0]
    else StrLt(a[1..], b[1..])
  }

  lemma {:induction false} StrLtIrreflexive(a: string)
    ensures !StrLt(a, a)
  {
    if a != [] {
      StrLtIrreflexive(a[1..]);
    }
  }

  lemma {:induction false} StrLtTransitive(a: string, b: string, c: string)
    requires StrLt(a, b) && StrLt(b, c)
    ensures StrLt(a, c)
  {
    if a != [] && b != [] && c != [] && a[0] == b[0] && b[0] == c[0] {
      StrLtTransitive(a[1..], b[1..], c[1..]);
    }
  }

  lemma {:induction false} StrLtTotal(a: string, b: string)
    requires a != b
    ensures StrLt(a, b) || StrLt(b, a)
  {
    if a != [] && b != [] && a[0] == b[0] {
      assert a == [a[0]] + a[1..] && b == [b[0]] + b[1..];
      StrLtTotal(a[1..], b[1..]);
    }
  }

  /** `(a.score, a.url) <= (b.score, b.url)`. */
  predicate CandLe(a: Candidate, b: Candidate) {
    a.score < b.score || (a.score == b.score && !StrLt(b.url, a.url))
  }

  lemma CandLeTotal(a: Candidate, b: Candidate)
    ensures CandLe(a, b) || CandLe(b, a)
  {
    if a.url == b.url {
      StrLtIrreflexive(a.url);
    } else if a.score == b.score {
      StrLtTotal(a.url, b.url);
      if StrLt(a.url, b.url) && StrLt(b.url, a.url) {
        StrLtTransitive(a.url, b.url, a.url);
        StrLtIrreflexive(a.url);
      }
    }
  }

  lemma CandLeTransitive(a: Candidate, b: Candidate, c: Candidate)
    requires CandLe(a, b) && CandLe(b, c)
    ensures CandLe(a, c)
  {
    if a.score == b.score && b.score == c.score && StrLt(c.url, a.url) {
      if b.url == a.url {
      } else {
        StrLtTotal(a.url, b.url);
        StrLtTransitive(c.url, a.url, b.url);
      }
    }
  }

  /** Descending order, as `sort(reverse=True)` leaves a list. */
  predicate SortedDesc(cs: seq<Candidate>) {
    forall i, j :: 0 <= i < j < |cs| ==> CandLe(cs[j], cs[i])
  }

  function Insert(c: Candidate, cs: seq<Candidate>): (r: seq<Candidate>)
    ensures |r| == |cs| + 1
  {
    if cs == [] || CandLe(cs[0], c) then [c] + cs else [cs[0]] + Insert(c, cs[1..])
  }

  /** `sorted(cs, reverse=True)`. */
  function SortDesc(cs: seq<Candidate>): (r: seq<Candidate>)
    ensures |r| == |cs|
  {
    if cs == [] then [] else Insert(cs[0], SortDesc(cs[1..]))
  }

  lemma {:induction false} InsertSorted(c: Candidate, cs: seq<Candidate>)
    requires SortedDesc(cs)
    ensures SortedDesc(Insert(c, cs))
    ensures multiset(Insert(c, cs)) == multiset(cs) + multiset{c}
  {
    if cs == [] || CandLe(cs[0], c) {
      var r := [c] + cs;
      forall i, j | 0 <= i < j < |r|
        ensures CandLe(r[j], r[i])
      {
        if i == 0 && j > 1 {
          assert CandLe(cs[j - 1], cs[0]);
          CandLeTransitive(r[j], cs[0], c);
        }
      }
    } else {
      InsertSorted(c, cs[1..]);
      var t := Insert(c, cs[1..]);
      var r := [cs[0]] + t;
      CandLeTotal(cs[0], c);
      forall i, j | 0 <= i < j < |r|
        ensures CandLe(r[j], r[i])
      {
        if i == 0 {
          assert r[j] in multiset(cs[1..]) + multiset{c} by {
            assert r[j] in multiset(t);
          }
          if r[j] != c {
            assert r[j] in cs[1..];
          }
        }
      }
      assert cs == [cs[0]] + cs[1..];
    }
  }

  lemma {:induction false} SortDescSorted(cs: seq<Candidate>)
    ensures SortedDesc(SortDesc(cs))
    ensures multiset(SortDesc(cs)) == multiset(cs)
  {
    if cs != [] {
      SortDescSorted(cs[1..]);
      InsertSorted(cs[0], SortDesc(cs[1..]));
      assert cs == [cs[0]] + cs[1..];
    }
  }

  // ---------------------------------------------------------------------------
  // Picking the homepage

  /**
   * The scan over the sorted candidates: the first URL not seen before whose score
   * reaches 100; every URL passed over is remembered as seen.
   */
  function FirstConfident(cs: seq<Candidate>, seen: set<string>): Option<string> {
    if cs == [] then None
    else if cs[0].url !in seen && cs[0].score >= 100 then Some(cs[0].url)
    else FirstConfident(cs[1..], seen + {cs[0].url})
  }

  /** The loop over the sorted candidates with its `seen` set. */
  method PickConfident(cs: seq<Candidate>) returns (r: Option<string>)
    ensures r == FirstConfident(cs, {})
  {
    var seen: set<string> := {};
    var i := 0;
    while i < |cs|
      invariant 0 <= i <= |cs|
      invariant FirstConfident(cs[i..], seen) == FirstConfident(cs, {})
    {
      assert cs[i..][1..] == cs[i + 1..];
      var c := cs[i];
      if c.url !in seen {
        if c.score >= 100 {
          return Some(c.url);
        }
      }
      seen := seen + {c.url};
      i := i + 1;
    }
    return None;
  }

  lemma {:induction false} NoneConfident(cs: seq<Candidate>, seen: set<string>)
    requires forall i :: 0 <= i < |cs| ==> cs[i].score < 100
    ensures FirstConfident(cs, seen) == None
  {
    if cs != [] {
      NoneConfident(cs[1..], seen + {cs[0].url});
    }
  }

  /** The homepage among `cands`: the largest (score, URL) pair's URL, if its score is at least 100. */
  function SelectHomepage(cands: seq<Candidate>): Option<string> {
    FirstConfident(SortDesc(cands), {})
  }

  /**
   * A homepage is chosen exactly when some candidate scores at least 100, and it is the
   * URL of the candidate with the largest (score, URL) pair.
   */
  lemma SelectHomepageBest(cands: seq<Candidate>)
    ensures SelectHomepage(cands).None? <==> forall c :: c in cands ==> c.score < 100
    ensures SelectHomepage(cands).Some? ==>
              exists c :: c in cands && c.url == SelectHomepage(cands).value && c.score >= 100
                          && forall d :: d in cands ==> CandLe(d, c)
  {
    var s := SortDesc(cands);
    SortDescSorted(cands);
    assert forall c :: c in cands <==> c in s by {
      assert forall c :: c in cands <==> c in multiset(cands);
    }
    if s != [] && s[0].score >= 100 {
      var c := s[0];
      assert c in cands;
      forall d | d in cands
        ensures CandLe(d, c)
      {
        var j :| 0 <= j < |s| && s[j] == d;
        if j > 0 {
          assert CandLe(s[j], s[0]);
        } else {
          CandLeTotal(d, d);
        }
      }
    } else {
      forall i | 0 <= i < |s|
        ensures s[i].score < 100
      {
        if i > 0 {
          assert CandLe(s[i], s[0]);
        }
      }
      NoneConfident(s, {});
    }
  }

  // ---------------------------------------------------------------------------
  // Resolving a homepage

  /**
   * What crawling the launch page gives: an exception, or the page's HTML (`None` when
   * none came back) together with the external URLs the link pattern finds in it.
   */
  datatype CrawlOutcome = CrawlRaised | Crawled(html: Option<string>, externalUrls: seq<string>)

  /** The launch page crawled for a product: its Product Hunt URL without the query. */
  function LaunchPage(p: Product): string
    requires Truthy(p.producthuntUrl)
  {
    BeforeFirst(p.producthuntUrl.value, "?")
  }

  /** `resolve_homepage_url`, with the crawl of the launch page as an input. */
  function Resolved(p: Product, crawl: string -> CrawlOutcome): Option<string> {
    if !Truthy(p.producthuntUrl) then None
    else
      match crawl(LaunchPage(p))
      case CrawlRaised => None
      case Crawled(html, urls) =>
        if !Truthy(html) || urls == [] then None
        else
          var cands := Candidates(urls, KeysOf(p.name, p.slug));
          if cands == [] then None else SelectHomepage(cands)
  }

  method ResolveHomepageUrl(p: Product, crawl: string -> CrawlOutcome) returns (r: Option<string>)
    ensures r == Resolved(p, crawl)
  {
    if !Truthy(p.producthuntUrl) {
      return None;
    }
    var outcome := crawl(LaunchPage(p));
    if outcome.CrawlRaised? || !Truthy(outcome.html) || outcome.externalUrls == [] {
      return None;
    }
    var cands := CollectCandidates(outcome.externalUrls, KeysOf(p.name, p.slug));
    if cands == [] {
      return None;
    }
    var sorted := SortDesc(cands);
    r := PickConfident(sorted);
  }

  /**
   * A resolved homepage comes from a link on the launch page that survived the filters,
   * is "https://" and a host, scores at least 100, and beats every other candidate;
   * nothing is resolved for a product without a Product Hunt URL or when the crawl raised.
   */
  lemma ResolvedBest(p: Product, crawl: string -> CrawlOutcome)
    ensures !Truthy(p.producthuntUrl) ==> Resolved(p, crawl) == None
    ensures Truthy(p.producthuntUrl) && crawl(LaunchPage(p)).CrawlRaised? ==> Resolved(p, crawl) == None
    ensures Resolved(p, crawl).Some? ==>
              && Truthy(p.producthuntUrl) && crawl(LaunchPage(p)).Crawled?
              && exists u, c :: && u in crawl(LaunchPage(p)).externalUrls
                                && CandidateOf(u, KeysOf(p.name, p.slug)) == Some(c)
                                && c.url == Resolved(p, crawl).value
                                && c.url == "https://" + CleanDomain(u)
                                && c.score >= 100
                                && forall d :: d in Candidates(crawl(LaunchPage(p)).externalUrls, KeysOf(p.name, p.slug)) ==> CandLe(d, c)
  {
    if Resolved(p, crawl).Some? {
      var urls := crawl(LaunchPage(p)).externalUrls;
      var k := KeysOf(p.name, p.slug);
      var cands := Candidates(urls, k);
      SelectHomepageBest(cands);
      CandidatesFrom(urls, k);
      var c :| c in cands && c.url == SelectHomepage(cands).value && c.score >= 100
               && forall d :: d in cands ==> CandLe(d, c);
      var u :| u in urls && CandidateOf(u, k) == Some(c);
    }
  }
}

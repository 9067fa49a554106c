/**
 * Picking a product's homepage off its SaaSHub page: four link patterns tried in order,
 * the tracking parameters cut off the winner, then the first external link that is not
 * SaaSHub's own or a social network's; and the batches of `discover_homepage_urls`.
 * The crawler is a function from URL to what the crawl gives, and the regular-expression
 * search a function from (pattern, page) to the first capture group of the first match.
 */
module UrlDiscovery {
  import opened Wrappers
  import opened Strings

  /** The link patterns, in the order they are tried. */
  const Patterns: seq<string> := [
    @"href=""(https?://[^""]+)\?ref=saashub""",
    @"href=""(https?://[^""]+)""[^>]*>Visit Website",
    @"href=""(https?://[^""]+)""[^>]*>Official Website",
    @"class=""website-link""[^>]*href=""(https?://[^""]+)"""
  ]

  /** Hosts whose links are never taken for a homepage, besides SaaSHub's own. */
  const SocialHosts: seq<string> := ["twitter.com", "linkedin.com", "facebook.com", "github.com"]

  /** The prefix of a SaaSHub path that is not already a URL. */
  const SaasHubBase: string := "https://www.saashub.com"

  /** A crawled page: whether the crawl succeeded, its HTML, and the `href` of each external link. */
  datatype Page = Page(success: bool, html: Option<string>, externalLinks: Option<seq<string>>)

  /** What the crawler gives for a URL: a page, or the exception it raised. */
  datatype Crawl = Crawled(page: Page) | CrawlRaised(message: string)

  /** The outcome of one homepage lookup. */
  datatype Discovered = Discovered(homepage: Option<string>) | Raised(message: string)

  type Crawler = string -> Crawl

  /** `re.search(pattern, html, re.IGNORECASE).group(1)`, `None` when there is no match. */
  type Search = (string, string) -> Option<string>

  // ---------------------------------------------------------------------------
  // Selection

  /** The URL cut at the first `?ref=` and then at the first `?utm_`. */
  function Clean(url: string): (r: string)
    ensures StartsWith(url, r)
    ensures !Contains(r, "?ref=") && !Contains(r, "?utm_")
    ensures !Contains(url, "?ref=") && !Contains(url, "?utm_") ==> r == url
  {
    var a := BeforeFirst(url, "?ref=");
    var b := BeforeFirst(a, "?utm_");
    BeforeFirstAbsent(url, "?ref=");
    BeforeFirstAbsent(a, "?utm_");
    PrefixKeepsAbsence(a, b, "?ref=");
    CleanNoOp(url);
    b
  }

  lemma CleanNoOp(url: string)
    ensures !Contains(url, "?ref=") && !Contains(url, "?utm_") ==> BeforeFirst(BeforeFirst(url, "?ref="), "?utm_") == url
  {
    if !Contains(url, "?ref=") && !Contains(url, "?utm_") {
      BeforeFirstNoOp(url, "?ref=");
      BeforeFirstNoOp(url, "?utm_");
    }
  }

  /** Cutting at a separator keeps a prefix that does not hold the separator's first character. */
  lemma {:induction false} BeforeFirstKeepsPrefix(s: string, sep: string, p: string)
    requires |sep| > 0 && StartsWith(s, p) && sep[0] !in p
    ensures StartsWith(BeforeFirst(s, sep), p)
  {
    if p != [] {
      assert s[0] == p[0];
      assert StartsWith(s[1..], p[1..]);
      BeforeFirstKeepsPrefix(s[1..], sep, p[1..]);
    }
  }

  /** The cleaned URL keeps its scheme: the patterns capture only `http://` and `https://` URLs. */
  lemma CleanKeepsScheme(url: string)
    requires StartsWith(url, "http")
    ensures StartsWith(Clean(url), "http")
  {
    BeforeFirstKeepsPrefix(url, "?ref=", "http");
    BeforeFirstKeepsPrefix(BeforeFirst(url, "?ref="), "?utm_", "http");
  }

  /** A link that may be the homepage: not SaaSHub's and not a social network's. */
  predicate Kept(href: string) {
    !Contains(href, "saashub.com") && forall h | h in SocialHosts :: !Contains(href, h)
  }

  /** The index of the first capture, or the number of patterns when none matched. */
  function FirstCapture(captures: seq<Option<string>>): (k: nat)
    ensures k <= |captures|
    ensures forall j :: 0 <= j < k ==> captures[j].None?
    ensures k < |captures| ==> captures[k].Some?
  {
    if captures == [] || captures[0].Some? then 0 else 1 + FirstCapture(captures[1..])
  }

  /** The index of the first link kept, or the number of links when none is. */
  function FirstKept(hrefs: seq<string>): (k: nat)
    ensures k <= |hrefs|
    ensures forall j :: 0 <= j < k ==> !Kept(hrefs[j])
    ensures k < |hrefs| ==> Kept(hrefs[k])
  {
    if hrefs == [] || Kept(hrefs[0]) then 0 else 1 + FirstKept(hrefs[1..])
  }

  /** What each pattern captures on `html`, in order. */
  function Captures(search: Search, html: string): (c: seq<Option<string>>)
    ensures |c| == |Patterns|
    ensures forall i :: 0 <= i < |Patterns| ==> c[i] == search(Patterns[i], html)
  {
    [search(Patterns[0], html), search(Patterns[1], html), search(Patterns[2], html), search(Patterns[3], html)]
  }

  /** The homepage `extract_homepage_from_saashub` picks off a crawled page. */
  function PageHomepage(page: Page, search: Search): Option<string> {
    if !page.success then None
    else
      var captures := Captures(search, page.html.GetOr(""));
      var i := FirstCapture(captures);
      if i < |captures| then Some(Clean(captures[i].value))
      else if page.externalLinks.Some? then
        var hrefs := page.externalLinks.value;
        var j := FirstKept(hrefs);
        if j < |hrefs| then Some(hrefs[j]) else None
      else None
  }

  /**
   * A failed crawl has no homepage. Otherwise the first pattern that matches decides, and
   * its capture is returned without tracking parameters; only when no pattern matches is
   * the first kept external link returned, and there is no homepage when there is none.
   */
  lemma PageHomepageMeaning(page: Page, search: Search)
    ensures !page.success ==> PageHomepage(page, search) == None
    ensures page.success ==>
              var html := page.html.GetOr("");
              forall i :: 0 <= i < |Patterns| && search(Patterns[i], html).Some? &&
                          (forall j :: 0 <= j < i ==> search(Patterns[j], html).None?) ==>
                PageHomepage(page, search) == Some(Clean(search(Patterns[i], html).value))
    ensures page.success ==>
              var html := page.html.GetOr("");
              (forall i :: 0 <= i < |Patterns| ==> search(Patterns[i], html).None?) ==>
                match page.externalLinks
                case None => PageHomepage(page, search) == None
                case Some(hrefs) =>
                  && (PageHomepage(page, search).Some? <==> exists j :: 0 <= j < |hrefs| && Kept(hrefs[j]))
                  && forall j :: 0 <= j < |hrefs| && Kept(hrefs[j]) && (forall k :: 0 <= k < j ==> !Kept(hrefs[k])) ==>
                       PageHomepage(page, search) == Some(hrefs[j])
    ensures var r := PageHomepage(page, search);
            r.Some? && Contains(r.value, "?ref=") ==> page.externalLinks.Some? && r.value in page.externalLinks.value
  {
    if page.success {
      var captures := Captures(search, page.html.GetOr(""));
      var i := FirstCapture(captures);
      if page.externalLinks.Some? && i == |captures| {
        var hrefs := page.externalLinks.value;
        var j := FirstKept(hrefs);
        if j < |hrefs| {
          assert hrefs[j] in hrefs;
        }
      }
    }
  }

  /** A SaaSHub path made absolute, unless it already starts with `http`. */
  function Absolute(url: string): (r: string)
    ensures StartsWith(r, "http")
    ensures StartsWith(url, "http") ==> r == url
    ensures !StartsWith(url, "http") ==> r == SaasHubBase + url
  {
    if StartsWith(url, "http") then url
    else
      assert (SaasHubBase + url)[..4] == "http";
      SaasHubBase + url
  }

  /** `extract_homepage_from_saashub` as a value: the crawler's exception is passed on. */
  function Lookup(url: string, crawler: Crawler, search: Search): Discovered {
    match crawler(url)
    case CrawlRaised(m) => Raised(m)
    case Crawled(page) => Discovered(PageHomepage(page, search))
  }

  /** `extract_homepage_from_saashub`: try the patterns, then the external links. */
  method ExtractHomepage(saashubUrl: string, crawler: Crawler, search: Search) returns (r: Discovered)
    ensures r == Lookup(saashubUrl, crawler, search)
  {
    var crawl := crawler(saashubUrl);
    if crawl.CrawlRaised? {
      return Raised(crawl.message);
    }
    var page := crawl.page;
    if !page.success {
      return Discovered(None);
    }
    var html := page.html.GetOr("");
    ghost var captures := Captures(search, html);
    var i := 0;
    while i < |Patterns|
      invariant 0 <= i <= |Patterns|
      invariant forall j :: 0 <= j < i ==> captures[j].None?
    {
      var found := search(Patterns[i], html);
      if found.Some? {
        return Discovered(Some(Clean(found.value)));
      }
      i := i + 1;
    }
    if page.externalLinks.Some? {
      var hrefs := page.externalLinks.value;
      var j := 0;
      while j < |hrefs|
        invariant 0 <= j <= |hrefs|
        invariant forall k :: 0 <= k < j ==> !Kept(hrefs[k])
      {
        var href := hrefs[j];
        if Contains(href, "saashub.com") {
          j := j + 1;
          continue;
        }
        if exists h :: h in SocialHosts && Contains(href, h) {
          j := j + 1;
          continue;
        }
        return Discovered(Some(href));
      }
    }
    return Discovered(None);
  }

  /** `discover_homepage_single` as a value: no URL, no homepage. */
  function SingleLookup(saashubUrl: Option<string>, crawler: Crawler, search: Search): Discovered {
    if !Truthy(saashubUrl) then Discovered(None) else Lookup(Absolute(saashubUrl.value), crawler, search)
  }

  /** `discover_homepage_single`: the page crawled is the absolute form of the SaaSHub URL. */
  method DiscoverHomepageSingle(saashubUrl: Option<string>, crawler: Crawler, search: Search) returns (r: Discovered)
    ensures r == SingleLookup(saashubUrl, crawler, search)
  {
    if saashubUrl.None? || saashubUrl.value == "" {
      return Discovered(None);
    }
    var url := saashubUrl.value;
    if !StartsWith(url, "http") {
      url := SaasHubBase + url;
    }
    r := ExtractHomepage(url, crawler, search);
  }

  // ---------------------------------------------------------------------------
  // Batches

  /**
   * One product dict of `discover_homepage_urls`: its `saashub_url` and `name` keys and the
   * `saashubUrl` and `name` of its `attributes` (`None` when missing).
   */
  datatype Listing = Listing(saashubUrl: Option<string>, name: Option<string>,
                             attributeUrl: Option<string>, attributeName: Option<string>)

  /** `prod.get("saashub_url") or attributes.get("saashubUrl")`. */
  function ListingUrl(l: Listing): Option<string> {
    if Truthy(l.saashubUrl) then l.saashubUrl else l.attributeUrl
  }

  /** `prod.get("name") or attributes.get("name", "Unknown")`. */
  function ListingName(l: Listing): string {
    if Truthy(l.name) then l.name.value else l.attributeName.GetOr("Unknown")
  }

  /**
   * The page lookup a batch runs for each listing: `extract_homepage_from_saashub` bound to
   * the batch's one crawler, as `ExtractHomepage` computes it.
   */
  type Extractor = string -> Discovered

  /** `extract_homepage_from_saashub` with the crawler and the regex search fixed. */
  function ExtractorOf(crawler: Crawler, search: Search): Extractor {
    url => Lookup(url, crawler, search)
  }

  /** A listing's homepage in a batch: no URL or an exception gives no homepage. */
  function ListingHomepage(l: Listing, extract: Extractor): Option<string> {
    if !Truthy(ListingUrl(l)) then None
    else match extract(Absolute(ListingUrl(l).value))
         case Discovered(d) => d
         case Raised(_) => None
  }

  /**
   * With the batch's crawler, a listing without a URL, or whose crawl raised, has no homepage;
   * otherwise its homepage is the one picked off the page its absolute URL leads to, the same
   * as `discover_homepage_single` finds.
   */
  lemma ListingHomepageMeaning(l: Listing, crawler: Crawler, search: Search)
    ensures !Truthy(ListingUrl(l)) ==> ListingHomepage(l, ExtractorOf(crawler, search)) == None
    ensures Truthy(ListingUrl(l)) ==>
              match crawler(Absolute(ListingUrl(l).value))
              case CrawlRaised(_) => ListingHomepage(l, ExtractorOf(crawler, search)) == None
              case Crawled(page) => ListingHomepage(l, ExtractorOf(crawler, search)) == PageHomepage(page, search)
    ensures SingleLookup(ListingUrl(l), crawler, search).Discovered? ==>
              ListingHomepage(l, ExtractorOf(crawler, search)) == SingleLookup(ListingUrl(l), crawler, search).homepage
  {
  }

  /** The dict filled with the first `n` listings in turn, a later name overwriting an earlier. */
  function Homepages(listings: seq<Listing>, extract: Extractor, n: nat): map<string, Option<string>>
    requires n <= |listings|
  {
    if n == 0 then map[]
    else Homepages(listings, extract, n - 1)[ListingName(listings[n - 1]) := ListingHomepage(listings[n - 1], extract)]
  }

  /** Every name gets an entry, and a name's entry is the homepage of its last listing. */
  lemma {:induction false} HomepagesLastWins(listings: seq<Listing>, extract: Extractor, n: nat, j: nat)
    requires j < n <= |listings|
    requires forall i :: j < i < n ==> ListingName(listings[i]) != ListingName(listings[j])
    ensures ListingName(listings[j]) in Homepages(listings, extract, n)
    ensures Homepages(listings, extract, n)[ListingName(listings[j])] == ListingHomepage(listings[j], extract)
  {
    if j < n - 1 {
      HomepagesLastWins(listings, extract, n - 1, j);
    }
  }

  /** No entry but for a listed name. */
  lemma {:induction false} HomepagesKeys(listings: seq<Listing>, extract: Extractor, n: nat)
    requires n <= |listings|
    ensures forall name :: name in Homepages(listings, extract, n) <==>
                             exists i :: 0 <= i < n && ListingName(listings[i]) == name
  {
    if n > 0 {
      HomepagesKeys(listings, extract, n - 1);
    }
  }

  /** One `on_progress(name, index, total, homepage)` call. */
  datatype Progress = Progress(name: string, index: nat, total: nat, homepage: Option<string>)

  /** The progress reports of the first `n` listings, in order. */
  function Reports(listings: seq<Listing>, extract: Extractor, n: nat): (r: seq<Progress>)
    requires n <= |listings|
    ensures |r| == n
  {
    if n == 0 then []
    else Reports(listings, extract, n - 1) + [Progress(ListingName(listings[n - 1]), n - 1, |listings|, ListingHomepage(listings[n - 1], extract))]
  }

  /** Report `k` is about listing `k`: every index is reported once, in order. */
  lemma {:induction false} ReportsAt(listings: seq<Listing>, extract: Extractor, n: nat, k: nat)
    requires k < n <= |listings|
    ensures Reports(listings, extract, n)[k] == Progress(ListingName(listings[k]), k, |listings|, ListingHomepage(listings[k], extract))
  {
    if k < n - 1 {
      ReportsAt(listings, extract, n - 1, k);
    }
  }

  /** Entering and reporting listing `j` extends the dict and the reports by one. */
  lemma EnterStep(listings: seq<Listing>, extract: Extractor, j: nat,
                  found: map<string, Option<string>>, progress: seq<Progress>, name: string, homepage: Option<string>)
    requires j < |listings| && name == ListingName(listings[j]) && homepage == ListingHomepage(listings[j], extract)
    requires found == Homepages(listings, extract, j) && progress == Reports(listings, extract, j)
    ensures found[name := homepage] == Homepages(listings, extract, j + 1)
    ensures progress + [Progress(name, j, |listings|, homepage)] == Reports(listings, extract, j + 1)
  {
  }

  /**
   * One listing of a batch: its name, and its homepage, the page lookup running on the
   * absolute form of its URL and an exception counting as no homepage.
   */
  method DiscoverListing(listing: Listing, extract: Extractor) returns (name: string, homepage: Option<string>)
    ensures name == ListingName(listing)
    ensures homepage == ListingHomepage(listing, extract)
  {
    homepage := None;
    var url := ListingUrl(listing);
    if url.Some? && url.value != "" {
      var absolute := url.value;
      if !StartsWith(absolute, "http") {
        absolute := SaasHubBase + absolute;
      }
      var lookup := extract(absolute);
      if lookup.Discovered? {
        homepage := lookup.homepage;
      }
    }
    name := ListingName(listing);
  }

  /** The listings from `start` to `stop`, entered into `found` and reported in order. */
  method DiscoverBatch(listings: seq<Listing>, start: nat, stop: nat, found: map<string, Option<string>>,
                       progress: seq<Progress>, extract: Extractor)
    returns (found': map<string, Option<string>>, progress': seq<Progress>)
    requires start <= stop <= |listings|
    requires found == Homepages(listings, extract, start)
    requires progress == Reports(listings, extract, start)
    ensures found' == Homepages(listings, extract, stop)
    ensures progress' == Reports(listings, extract, stop)
  {
    found', progress' := found, progress;
    var j := start;
    while j < stop
      invariant start <= j <= stop
      invariant found' == Homepages(listings, extract, j)
      invariant progress' == Reports(listings, extract, j)
    {
      var name, homepage := DiscoverListing(listings[j], extract);
      EnterStep(listings, extract, j, found', progress', name, homepage);
      found' := found'[name := homepage];
      progress' := progress' + [Progress(name, j, |listings|, homepage)];
      j := j + 1;
    }
  }

  /**
   * `discover_homepage_urls`: the listings in slices of `batchSize`, a pause between two
   * slices; returns the dict, the progress reports and the pauses taken. A `batchSize` of 0
   * is the `ValueError` of `range` (`None`); a negative one makes no slice.
   */
  method DiscoverHomepageUrls(listings: seq<Listing>, batchSize: int, extract: Extractor)
    returns (results: Option<map<string, Option<string>>>, progress: seq<Progress>, pauses: nat)
    ensures batchSize == 0 <==> results.None?
    ensures batchSize < 0 ==> results == Some(map[]) && progress == [] && pauses == 0
    ensures batchSize > 0 ==> results == Some(Homepages(listings, extract, |listings|))
    ensures batchSize > 0 ==> progress == Reports(listings, extract, |listings|)
    ensures batchSize > 0 && |listings| > 0 ==> pauses == Slices(|listings|, batchSize) - 1
    ensures |listings| == 0 ==> pauses == 0
  {
    if batchSize == 0 {
      return None, [], 0;
    }
    var found: map<string, Option<string>> := map[];
    progress := [];
    pauses := 0;
    if batchSize < 0 {
      return Some(found), progress, pauses;
    }
    var total := |listings|;
    var start := 0;
    ghost var done := 0;
    while start < total
      invariant done == if start < total then start else total
      invariant start == 0 ==> pauses == 0
      invariant start < total ==> pauses + Slices(total - start, batchSize) == Slices(total, batchSize)
      invariant start >= total && start > 0 ==> pauses + 1 == Slices(total, batchSize)
      invariant found == Homepages(listings, extract, done)
      invariant progress == Reports(listings, extract, done)
      decreases total - start
    {
      var stop := if start + batchSize < total then start + batchSize else total;
      found, progress := DiscoverBatch(listings, start, stop, found, progress, extract);
      PauseCount(total, start, batchSize, pauses);
      if start + batchSize < total {
        pauses := pauses + 1;
      }
      start := start + batchSize;
      done := stop;
    }
    assert done == total;
    return Some(found), progress, pauses;
  }

  /** The number of slices of `batchSize` that `range(0, total, batchSize)` makes. */
  function Slices(total: int, batchSize: int): nat
    requires batchSize > 0
    decreases total
  {
    if total <= 0 then 0 else 1 + Slices(total - batchSize, batchSize)
  }

  /** After the slice at `start`, one pause more if another slice follows, else the count is complete. */
  lemma PauseCount(total: int, start: int, batchSize: int, pauses: int)
    requires batchSize > 0 && start < total
    requires pauses + Slices(total - start, batchSize) == Slices(total, batchSize)
    ensures start + batchSize < total ==> pauses + 1 + Slices(total - (start + batchSize), batchSize) == Slices(total, batchSize)
    ensures start + batchSize >= total ==> pauses + 1 == Slices(total, batchSize)
  {
    assert Slices(total - start, batchSize) == 1 + Slices(total - start - batchSize, batchSize);
  }

  /** `Slices` is the ceiling of `total / batchSize`: the last slice is not empty and holds the rest. */
  lemma {:induction false} SlicesBounds(total: int, batchSize: int)
    requires batchSize > 0 && total > 0
    ensures (Slices(total, batchSize) - 1) * batchSize < total <= Slices(total, batchSize) * batchSize
    decreases total
  {
    if total > batchSize {
      SlicesBounds(total - batchSize, batchSize);
      MoreSlices(Slices(total - batchSize, batchSize), batchSize);
    }
  }

  /** The distributive steps `PauseCount` needs about one more slice. */
  lemma MoreSlices(n: int, batchSize: int)
    ensures (n + 1) * batchSize == n * batchSize + batchSize
    ensures (n + 1 - 1) * batchSize == (n - 1) * batchSize + batchSize
  {
  }
}

/**
 * The collector that drives a resumable run in three phases: products from the SaaSHub
 * alternatives of each seed query, homepages from the SaaSHub pages, and product facts
 * extracted from the homepages by a language model. The API replies, the pages and the
 * extraction results are inputs; what is modelled is how each phase moves the run state,
 * when a phase skips, halts or stops, and how the phases are sequenced.
 */
module Collect {
  import opened Wrappers
  import opened Strings
  import opened Sequences
  import opened State
  import SaasHub
  import UrlDiscovery
  import RateLimiter

  // ---------------------------------------------------------------------------
  // The run state as a value

  /** Every field of a `CollectionState`, read at one moment. */
  datatype Snapshot = Snapshot(
    runId: string,
    startedAt: string,
    updatedAt: string,
    processedSeeds: seq<string>,
    keys: seq<string>,
    products: map<string, ProductState>,
    consecutiveLlmFailures: int,
    totalLlmFailures: int,
    lastLlmError: Option<string>,
    halted: bool,
    haltReason: Option<string>,
    totalDiscovered: int,
    totalExtracted: int,
    totalFailed: int)

  function SnapshotOf(s: CollectionState): Snapshot
    reads s
  {
    Snapshot(s.runId, s.startedAt, s.updatedAt, s.processedSeeds, s.keys, s.products,
             s.consecutiveLlmFailures, s.totalLlmFailures, s.lastLlmError, s.halted, s.haltReason,
             s.totalDiscovered, s.totalExtracted, s.totalFailed)
  }

  /** `keys` lists the stored products once each (what `CollectionState.Valid` asks). */
  ghost predicate Consistent(t: Snapshot) {
    && Distinct(t.keys)
    && (forall k :: k in t.keys <==> k in t.products)
  }

  /** `add_product` without a homepage: a key already filed leaves the state as it is. */
  function WithProduct(t: Snapshot, key: string, p: ProductState): Snapshot {
    if key in t.products then t
    else t.(keys := t.keys + [key], products := t.products[key := p], totalDiscovered := t.totalDiscovered + 1)
  }

  /** `mark_seed_processed`. */
  function WithSeed(t: Snapshot, seed: string): Snapshot {
    if seed in t.processedSeeds then t else t.(processedSeeds := t.processedSeeds + [seed])
  }

  /** `mark_extraction_success`. */
  function WithSuccess(t: Snapshot, key: string, now: string): Snapshot {
    if key !in t.products then t
    else
      var p := t.products[key];
      t.(products := t.products[key := p.(extracted := true, extractedAt := Some(now),
                                           extractionAttempts := p.extractionAttempts + 1)],
         totalExtracted := t.totalExtracted + 1,
         consecutiveLlmFailures := 0)
  }

  /** `mark_extraction_failure`; the run halts when the rate-limit failures in a row reach three. */
  function WithFailure(t: Snapshot, key: string, error: string, isRateLimit: bool, now: string): Snapshot {
    var products :=
      if key in t.products then
        var p := t.products[key];
        t.products[key := p.(extractionError := Some(error), extractionAttempts := p.extractionAttempts + 1,
                             lastAttemptAt := Some(now))]
      else t.products;
    var consecutive := t.consecutiveLlmFailures + (if isRateLimit then 1 else 0);
    var halt := isRateLimit && consecutive >= HaltThreshold;
    t.(products := products, totalFailed := t.totalFailed + 1, totalLlmFailures := t.totalLlmFailures + 1,
       lastLlmError := Some(error), consecutiveLlmFailures := consecutive,
       halted := if halt then true else t.halted,
       haltReason := if halt then Some(HaltMessage(consecutive, error)) else t.haltReason)
  }

  // ---------------------------------------------------------------------------
  // Phase 1: products from the alternatives of each seed

  /** `attrs.get("name", "Unknown")`. */
  function AltName(alt: SaasHub.Alternative): string {
    alt.name.GetOr("Unknown")
  }

  /** `attrs.get("saashubUrl", "")`, made absolute when it is not empty. */
  function AltUrl(alt: SaasHub.Alternative): (url: string)
    ensures url == "" <==> alt.saashubUrl.GetOr("") == ""
    ensures url != "" ==> StartsWith(url, "http")
    ensures StartsWith(alt.saashubUrl.GetOr(""), "http") ==> url == alt.saashubUrl.GetOr("")
  {
    var raw := alt.saashubUrl.GetOr("");
    if raw == "" then "" else UrlDiscovery.Absolute(raw)
  }

  /** The key one alternative row is filed under. */
  function AltKey(alt: SaasHub.Alternative): string {
    ProductKey(alt.id, AltName(alt))
  }

  /** The product one alternative row files when its key is new: no homepage yet, the URL as given. */
  function AltProduct(alt: SaasHub.Alternative, seed: string, now: string): ProductState {
    NewProduct(AltName(alt), seed, Some(AltUrl(alt)), alt.id, None, now)
  }

  /** The state once the first `j` alternatives of a seed are filed. */
  function RowsAdded(t: Snapshot, items: seq<SaasHub.Alternative>, seed: string, now: string, j: nat): Snapshot
    requires j <= |items|
  {
    if j == 0 then t
    else WithProduct(RowsAdded(t, items, seed, now, j - 1), AltKey(items[j - 1]), AltProduct(items[j - 1], seed, now))
  }

  /** The text `halt_reason` starts with when the SaaSHub API keeps answering 429. */
  const RateLimitReason := "SaaSHub rate limit: "

  /** Phase 1 so far: the state, the rows counted and whether a rate limit stopped the loop. */
  datatype Discovery = Discovery(snap: Snapshot, discovered: nat, stopped: bool)

  /**
   * One seed: skipped when processed, its alternatives filed and the seed marked when
   * they came, the loop stopped on a rate limit, and the seed left for later on any
   * other error.
   */
  function SeedStep(d: Discovery, seed: string, answer: SaasHub.AlternativesResult, now: string): Discovery {
    if d.stopped || seed in d.snap.processedSeeds then d
    else
      match answer
      case Alternatives(items) =>
        Discovery(WithSeed(RowsAdded(d.snap, items, seed, now, |items|), seed), d.discovered + |items|, false)
      case AlternativesFailed(f) =>
        if f.RateLimitFailure? then
          d.(snap := d.snap.(halted := true, haltReason := Some(RateLimitReason + SaasHub.Message(f))), stopped := true)
        else d
  }

  /** Phase 1 after the first `i` seeds, `answers[i]` being what the lookup of `seeds[i]` returns. */
  function DiscoveryAfter(t: Snapshot, seeds: seq<string>, answers: seq<SaasHub.AlternativesResult>, now: string, i: nat): Discovery
    requires i <= |seeds| <= |answers|
  {
    if i == 0 then Discovery(t, 0, false)
    else SeedStep(DiscoveryAfter(t, seeds, answers, now, i - 1), seeds[i - 1], answers[i - 1], now)
  }

  /** What `get_alternatives(seeds[i], limit)` returns on the replies `exchanges[i]`. */
  function Answers(exchanges: seq<seq<SaasHub.Exchange>>, limit: Option<int>): (r: seq<SaasHub.AlternativesResult>)
    requires SaasHub.EnoughAnswers(exchanges)
    ensures |r| == |exchanges|
    ensures forall i :: 0 <= i < |exchanges| ==> r[i] == SaasHub.AlternativesOf(SaasHub.RequestOutcome(exchanges[i]), limit)
  {
    if exchanges == [] then []
    else
      var n := |exchanges| - 1;
      Answers(exchanges[..n], limit) + [SaasHub.AlternativesOf(SaasHub.RequestOutcome(exchanges[n]), limit)]
  }

  // ---------------------------------------------------------------------------
  // Phase 2: homepages from the SaaSHub pages

  /** `discover_homepage_single` with the phase's crawler: what the SaaSHub URL leads to. */
  type Finder = Option<string> -> UrlDiscovery.Discovered

  /** `discover_homepage_single` as `UrlDiscovery` models it, on one crawler and regex search. */
  function FinderOf(crawler: UrlDiscovery.Crawler, search: UrlDiscovery.Search): Finder {
    url => UrlDiscovery.SingleLookup(url, crawler, search)
  }

  /** A lookup that gives a non-empty homepage; an exception or `None` gives nothing. */
  predicate Found(d: UrlDiscovery.Discovered) {
    d.Discovered? && Truthy(d.homepage)
  }

  /** Phase 2 so far: the products and the homepages found. */
  datatype HomepageRound = HomepageRound(products: map<string, ProductState>, discovered: nat)

  /** The product with the homepage found: both `homepage_url` and `homepage_discovered` are set. */
  function WithHomepage(p: ProductState, homepage: Option<string>): ProductState {
    p.(homepageUrl := homepage, homepageDiscovered := true)
  }

  /**
   * Phase 2 after the first `i` products of `queue`, each looked up by its current SaaSHub
   * URL (a key that is not stored is passed over; the queue holds none).
   */
  function HomepagesAfter(products: map<string, ProductState>, queue: seq<string>, find: Finder, i: nat): HomepageRound
    requires i <= |queue|
  {
    if i == 0 then HomepageRound(products, 0)
    else
      var r := HomepagesAfter(products, queue, find, i - 1);
      var key := queue[i - 1];
      if key !in r.products then r
      else
        var found := find(r.products[key].saashubUrl);
        if Found(found) then HomepageRound(r.products[key := WithHomepage(r.products[key], found.homepage)], r.discovered + 1)
        else r
  }

  /** One more product of phase 2: `next` and `found` are what looking up product `queue[i]` makes. */
  lemma HomepageNext(products: map<string, ProductState>, queue: seq<string>, find: Finder, i: nat,
                     current: map<string, ProductState>, discovered: nat, next: map<string, ProductState>, found: bool)
    requires i < |queue|
    requires HomepagesAfter(products, queue, find, i) == HomepageRound(current, discovered)
    requires queue[i] in current
    requires found == Found(find(current[queue[i]].saashubUrl))
    requires next == if found then current[queue[i] := WithHomepage(current[queue[i]], find(current[queue[i]].saashubUrl).homepage)]
                     else current
    ensures HomepagesAfter(products, queue, find, i + 1) == HomepageRound(next, if found then discovered + 1 else discovered)
  {
  }

  /** The products waiting for a homepage, in order. */
  function HomepageQueue(t: Snapshot): (queue: seq<string>)
    requires Consistent(t)
    ensures forall k :: k in queue ==> k in t.products && NeedsHomepage(t.products[k])
    ensures forall k :: k in t.products && NeedsHomepage(t.products[k]) ==> k in queue
  {
    KeysNeedingHomepage(t.keys, t.products)
  }

  /** How a phase that needs an API key ends: with its count, or with the `ValueError` for the key. */
  datatype PhaseEnd = Completed(count: nat) | KeyRequired(message: string)

  const SaasHubKeyMessage := "SaaSHub API key required. Set SAASHUB_API_KEY env var."
  const OpenAiKeyMessage := "OpenAI API key required. Set OPENAI_API_KEY env var."

  // ---------------------------------------------------------------------------
  // Phase 3: product facts extracted from the homepages

  /**
   * What crawling one homepage with the extraction strategy comes to: a failed crawl with
   * its error message, an error envelope (`[{"error": ..., "content": ...}]`) with its
   * content, content that is not JSON, a parse or write that raised, no content at all,
   * product facts that parse, or an exception from the crawler itself.
   */
  datatype Attempt =
    | CrawlFailed(errorMessage: Option<string>)
    | ErrorEnvelope(content: Option<string>)
    | BadJson(error: string)
    | ParseRaised(error: string)
    | NoContent
    | Parsed
    | Raised(error: string)

  /** The crawler with the extraction strategy, as a function of the homepage URL. */
  type Extraction = Option<string> -> Attempt

  /** How an attempt is recorded: a success, or a failure with its text and whether it is a rate limit. */
  datatype Verdict = Success | Failure(error: string, isRateLimit: bool)

  /** The test on an exception's text: "rate limit" in any case, or "429". */
  predicate RateLimitText(error: string) {
    Contains(Lower(error), "rate limit") || Contains(error, "429")
  }

  function VerdictOf(a: Attempt): Verdict {
    match a
    case CrawlFailed(m) => Failure(if Truthy(m) then m.value else "Crawl failed", false)
    case ErrorEnvelope(c) =>
      var error := c.GetOr("Unknown error");
      Failure(error, Contains(Lower(error), "rate limit"))
    case BadJson(e) => Failure("JSON parse error: " + e, false)
    case ParseRaised(e) => Failure(e, RateLimitText(e))
    case NoContent => Failure("No content extracted", false)
    case Parsed => Success
    case Raised(e) => Failure(e, RateLimitText(e))
  }

  /** One product of phase 3, recorded under the key `add_product` computes from its id and name. */
  function ExtractionStep(t: Snapshot, p: ProductState, crawl: Extraction, now: string): Snapshot {
    var key := ProductKey(p.saashubId, p.name);
    match VerdictOf(crawl(p.homepageUrl))
    case Success => WithSuccess(t, key, now)
    case Failure(error, isRateLimit) => WithFailure(t, key, error, isRateLimit, now)
  }

  /** Phase 3 so far: the state and the products extracted. */
  datatype ExtractionRun = ExtractionRun(snap: Snapshot, extracted: nat)

  /** Phase 3 after the first `i` products of `items`; a halted run takes no more steps. */
  function ExtractionAfter(t: Snapshot, items: seq<ProductState>, crawl: Extraction, now: string, i: nat): ExtractionRun
    requires i <= |items|
  {
    if i == 0 then ExtractionRun(t, 0)
    else
      var r := ExtractionAfter(t, items, crawl, now, i - 1);
      if r.snap.halted then r
      else
        var p := items[i - 1];
        ExtractionRun(ExtractionStep(r.snap, p, crawl, now),
                      if VerdictOf(crawl(p.homepageUrl)).Success? then r.extracted + 1 else r.extracted)
  }

  /** The products waiting for extraction, in order. */
  function ExtractionQueue(t: Snapshot): (items: seq<ProductState>)
    requires Consistent(t)
    ensures |items| == |KeysNeedingExtraction(t.keys, t.products)|
    ensures forall i :: 0 <= i < |items| ==>
              items[i] == t.products[KeysNeedingExtraction(t.keys, t.products)[i]] && NeedsExtraction(items[i])
  {
    ValuesOf(KeysNeedingExtraction(t.keys, t.products), t.products)
  }

  // ---------------------------------------------------------------------------
  // The whole run

  /** The three `skip_*` flags of `run`. */
  datatype Plan = Plan(skipDiscovery: bool, skipHomepages: bool, skipExtraction: bool)

  /** The counts `run` adds to the statistics; a phase that did not run counts 0. */
  datatype Counts = Counts(discovered: nat, homepages: nat, extracted: nat)

  /**
   * How `run` ends: the statistics of a run halted before it started, the statistics and
   * counts once it is done or halted after a phase, or the `ValueError` of a missing key.
   */
  datatype RunEnd = AlreadyHalted(stats: Stats) | Finished(stats: Stats, counts: Counts) | KeyMissing(message: string)

  /** The state after a phase and how the phase ended. */
  datatype Phase = Phase(snap: Snapshot, end: PhaseEnd)

  /** The state after `run` and what it returns. */
  datatype RunResult = RunResult(snap: Snapshot, end: RunEnd)

  /** `get_stats` on the value. */
  function StatsOf(t: Snapshot): Stats
    requires Consistent(t)
  {
    Stats(t.runId, t.startedAt, t.updatedAt, |t.processedSeeds|, t.totalDiscovered, t.totalExtracted, t.totalFailed,
          |ValuesOf(KeysNeedingHomepage(t.keys, t.products), t.products)|, |ExtractionQueue(t)|,
          t.consecutiveLlmFailures, t.halted, t.haltReason)
  }

  /** Phase 1, refused without a SaaSHub key; it keeps the key list and the filing of products right. */
  function DiscoveryPhase(t: Snapshot, hasKey: bool, seeds: seq<string>, answers: seq<SaasHub.AlternativesResult>,
                          now: string): (p: Phase)
    requires |seeds| <= |answers|
    ensures p.end.KeyRequired? ==> p == Phase(t, KeyRequired(SaasHubKeyMessage))
    ensures Consistent(t) ==> Consistent(p.snap)
    ensures Filed(t.products) ==> Filed(p.snap.products)
  {
    if !hasKey then Phase(t, KeyRequired(SaasHubKeyMessage))
    else
      var d := DiscoveryAfter(t, seeds, answers, now, |seeds|);
      DiscoveryCounts(t, seeds, answers, now, |seeds|);
      Phase(d.snap, Completed(d.discovered))
  }

  /** Phase 2, which does nothing on a halted run and never halts one. */
  function HomepagePhase(t: Snapshot, find: Finder): (p: Phase)
    requires Consistent(t)
    ensures p.end.Completed? && p.snap.halted == t.halted
    ensures Consistent(p.snap)
    ensures Filed(t.products) ==> Filed(p.snap.products)
  {
    if t.halted then Phase(t, Completed(0))
    else
      var queue := HomepageQueue(t);
      var r := HomepagesAfter(t.products, queue, find, |queue|);
      HomepagesOnlyFill(t.products, queue, find, |queue|);
      Phase(t.(products := r.products), Completed(r.discovered))
  }

  /** Phase 3, refused without an OpenAI key. */
  function ExtractionPhase(t: Snapshot, hasKey: bool, crawl: Extraction, now: string): (p: Phase)
    requires Consistent(t)
    ensures p.end.KeyRequired? ==> p == Phase(t, KeyRequired(OpenAiKeyMessage))
    ensures Consistent(p.snap)
    ensures Filed(t.products) ==> Filed(p.snap.products)
  {
    if !hasKey then Phase(t, KeyRequired(OpenAiKeyMessage))
    else
      var items := ExtractionQueue(t);
      var e := ExtractionAfter(t, items, crawl, now, |items|);
      ExtractionKeepsFiling(t, items, crawl, now, |items|);
      Phase(e.snap, Completed(e.extracted))
  }

  /** A phase that is skipped: the state as it is, counted 0. */
  function Skipped(t: Snapshot): Phase {
    Phase(t, Completed(0))
  }

  /**
   * `run` on the state `t`: nothing on a halted run; otherwise the phases not skipped, in
   * order, returning after discovery when the run is halted, and raising the `ValueError`
   * of a phase whose key is missing. The same check after phase 2 never fires, since
   * phase 2 never halts a run (`HomepagePhase`), and is not repeated here.
   */
  function RunAfter(t: Snapshot, plan: Plan, hasSaasHubKey: bool, hasOpenAiKey: bool, seeds: seq<string>,
                    answers: seq<SaasHub.AlternativesResult>, find: Finder, crawl: Extraction, now: string): RunResult
    requires Consistent(t) && |seeds| <= |answers|
  {
    if t.halted then RunResult(t, AlreadyHalted(StatsOf(t)))
    else
      var p1 := if plan.skipDiscovery then Skipped(t) else DiscoveryPhase(t, hasSaasHubKey, seeds, answers, now);
      if p1.end.KeyRequired? then RunResult(p1.snap, KeyMissing(p1.end.message))
      else if p1.snap.halted then RunResult(p1.snap, Finished(StatsOf(p1.snap), Counts(p1.end.count, 0, 0)))
      else
        var p2 := if plan.skipHomepages then Skipped(p1.snap) else HomepagePhase(p1.snap, find);
        var p3 := if plan.skipExtraction then Skipped(p2.snap) else ExtractionPhase(p2.snap, hasOpenAiKey, crawl, now);
        if p3.end.KeyRequired? then RunResult(p3.snap, KeyMissing(p3.end.message))
        else RunResult(p3.snap, Finished(StatsOf(p3.snap), Counts(p1.end.count, p2.end.count, p3.end.count)))
  }

  /** `MarketIntelCollector`: the run state it drives and the settings it was made with. */
  class Collector {
    const state: CollectionState
    const saashubApiKey: Option<string>
    const openaiApiKey: Option<string>
    const saashubDelay: real
    const maxProductsPerSeed: int

    /** Each key is the one given or, failing that, the one from the environment. */
    constructor (s: CollectionState, saashubKey: Option<string>, saashubEnvironment: Option<string>,
                 openaiKey: Option<string>, openaiEnvironment: Option<string>, delay: real, maxPerSeed: int)
      ensures state == s
      ensures saashubApiKey == SaasHub.ApiKeyOf(saashubKey, saashubEnvironment)
      ensures openaiApiKey == SaasHub.ApiKeyOf(openaiKey, openaiEnvironment)
      ensures saashubDelay == delay && maxProductsPerSeed == maxPerSeed
    {
      state := s;
      saashubApiKey := SaasHub.ApiKeyOf(saashubKey, saashubEnvironment);
      openaiApiKey := SaasHub.ApiKeyOf(openaiKey, openaiEnvironment);
      saashubDelay := delay;
      maxProductsPerSeed := maxPerSeed;
    }

    /** The alternatives of one seed, filed one row at a time. */
    method AddAlternatives(items: seq<SaasHub.Alternative>, seed: string, now: string)
      requires state.Valid()
      modifies state
      ensures state.Valid()
      ensures SnapshotOf(state) == RowsAdded(old(SnapshotOf(state)), items, seed, now, |items|)
    {
      ghost var t0 := SnapshotOf(state);
      var j := 0;
      while j < |items|
        invariant j <= |items|
        invariant state.Valid()
        invariant SnapshotOf(state) == RowsAdded(t0, items, seed, now, j)
      {
        AddAlternative(items[j], seed, now);
        j := j + 1;
      }
    }

    /** One alternative row of a seed: its name, its absolute URL and its id, filed under their key. */
    method AddAlternative(alt: SaasHub.Alternative, seed: string, now: string)
      requires state.Valid()
      modifies state
      ensures state.Valid()
      ensures SnapshotOf(state) == WithProduct(old(SnapshotOf(state)), AltKey(alt), AltProduct(alt, seed, now))
    {
      var name := alt.name.GetOr("Unknown");
      var url := alt.saashubUrl.GetOr("");
      if url != "" && !StartsWith(url, "http") {
        url := UrlDiscovery.SaasHubBase + url;
      }
      assert url == AltUrl(alt);
      ghost var before := SnapshotOf(state);
      var _ := state.AddProduct(name, seed, Some(url), alt.id, None, now);
      ProductFiled(before, SnapshotOf(state), AltKey(alt), AltProduct(alt, seed, now));
    }

    /**
     * `discover_products`: phase 1 over `seeds`, `exchanges[i]` being the replies to the
     * lookup of `seeds[i]`; returns the alternative rows seen, those of known products included.
     */
    method DiscoverProducts(seeds: seq<string>, exchanges: seq<seq<SaasHub.Exchange>>, now: string) returns (r: PhaseEnd)
      requires state.Valid()
      requires |exchanges| == |seeds| && SaasHub.EnoughAnswers(exchanges)
      modifies state
      ensures state.Valid()
      ensures !Truthy(saashubApiKey) ==> r == KeyRequired(SaasHubKeyMessage) && SnapshotOf(state) == old(SnapshotOf(state))
      ensures Truthy(saashubApiKey) ==>
                var d := DiscoveryAfter(old(SnapshotOf(state)), seeds, Answers(exchanges, Some(maxProductsPerSeed)), now, |seeds|);
                SnapshotOf(state) == d.snap && r == Completed(d.discovered)
    {
      if !Truthy(saashubApiKey) {
        return KeyRequired(SaasHubKeyMessage);
      }
      var limit := Some(maxProductsPerSeed);
      var client := new SaasHub.Client(saashubApiKey.value, saashubDelay);
      ghost var t0 := SnapshotOf(state);
      ghost var answers := Answers(exchanges, limit);
      var discovered: nat := 0;
      var i := 0;
      while i < |seeds|
        invariant i <= |seeds|
        invariant state.Valid()
        invariant DiscoveryAfter(t0, seeds, answers, now, i) == Discovery(SnapshotOf(state), discovered, false)
      {
        var stopped;
        discovered, stopped := DiscoverSeed(client, seeds[i], exchanges[i], limit, discovered, now);
        if stopped {
          StoppedStays(t0, seeds, answers, now, i + 1, |seeds|);
          return Completed(discovered);
        }
        i := i + 1;
      }
      return Completed(discovered);
    }

    /** One seed of `discover_products`, with `discovered` the rows counted before it. */
    method DiscoverSeed(client: SaasHub.Client, seed: string, exchanges: seq<SaasHub.Exchange>, limit: Option<int>,
                        discovered: nat, now: string)
      returns (discovered': nat, stopped: bool)
      requires state.Valid() && SaasHub.MaxRetries <= |exchanges|
      modifies state, client
      ensures state.Valid()
      ensures Discovery(SnapshotOf(state), discovered', stopped)
              == SeedStep(Discovery(old(SnapshotOf(state)), discovered, false), seed,
                          SaasHub.AlternativesOf(SaasHub.RequestOutcome(exchanges), limit), now)
    {
      discovered', stopped := discovered, false;
      if state.IsSeedProcessed(seed) {
        return;
      }
      var alternatives := client.GetAlternatives(limit, exchanges);
      match alternatives {
        case Alternatives(items) =>
          AddAlternatives(items, seed, now);
          ghost var before := SnapshotOf(state);
          state.MarkSeedProcessed(seed);
          SeedMarked(before, SnapshotOf(state), seed);
          discovered' := discovered + |items|;
        case AlternativesFailed(f) =>
          if f.RateLimitFailure? {
            state.halted := true;
            state.haltReason := Some(RateLimitReason + SaasHub.Message(f));
            stopped := true;
          }
      }
    }

    /** One product of `discover_homepages`: a homepage found is written into the stored product. */
    method DiscoverHomepage(key: string, find: Finder) returns (found: bool)
      requires key in state.products
      modifies state
      ensures var p := old(state.products[key]);
        && found == Found(find(p.saashubUrl))
        && SnapshotOf(state) == old(SnapshotOf(state)).(products :=
             if found then old(state.products)[key := WithHomepage(p, find(p.saashubUrl).homepage)] else old(state.products))
    {
      var prod := state.products[key];
      var homepage := find(prod.saashubUrl);
      found := false;
      if homepage.Discovered? && homepage.homepage.Some? && homepage.homepage.value != "" {
        state.products := state.products[key := prod.(homepageUrl := homepage.homepage, homepageDiscovered := true)];
        found := true;
      }
    }

    /**
     * `discover_homepages`: phase 2 over the products that still need a homepage, as they
     * stand when it starts; it stops at once when the run is halted. Returns the homepages found.
     */
    method DiscoverHomepages(find: Finder) returns (discovered: nat)
      requires state.Valid()
      modifies state
      ensures state.Valid()
      ensures old(state.halted) ==> SnapshotOf(state) == old(SnapshotOf(state)) && discovered == 0
      ensures !old(state.halted) ==>
                var t := old(SnapshotOf(state));
                var r := HomepagesAfter(t.products, HomepageQueue(t), find, |HomepageQueue(t)|);
                SnapshotOf(state) == t.(products := r.products) && discovered == r.discovered
    {
      ghost var t0 := SnapshotOf(state);
      var queue := KeysNeedingHomepage(state.keys, state.products);
      discovered := 0;
      if queue == [] {
        return;
      }
      var i := 0;
      while i < |queue|
        invariant i <= |queue|
        invariant state.halted == t0.halted
        invariant !t0.halted ==> HomepagesAfter(t0.products, queue, find, i) == HomepageRound(state.products, discovered)
        invariant t0.halted ==> i == 0 && state.products == t0.products && discovered == 0
        invariant SnapshotOf(state) == t0.(products := state.products)
        invariant state.products.Keys == t0.products.Keys
      {
        if state.ShouldHalt() {
          break;
        }
        ghost var before := state.products;
        var found := DiscoverHomepage(queue[i], find);
        HomepageNext(t0.products, queue, find, i, before, discovered, state.products, found);
        if found {
          discovered := discovered + 1;
        }
        i := i + 1;
      }
    }

    /**
     * One product of `extract_product_info`, on a run not yet halted: the verdict on its
     * crawl is recorded; returns whether it was extracted and whether the run halted now.
     */
    method ExtractProduct(prod: ProductState, crawl: Extraction, now: string) returns (success: bool, halt: bool)
      requires state.Valid() && !state.halted
      modifies state
      ensures state.Valid()
      ensures SnapshotOf(state) == ExtractionStep(old(SnapshotOf(state)), prod, crawl, now)
      ensures success == VerdictOf(crawl(prod.homepageUrl)).Success?
      ensures halt == state.halted
    {
      var key := if Truthy(prod.saashubId) then prod.saashubId.value else ReplaceChar(Lower(prod.name), ' ', '-');
      assert key == ProductKey(prod.saashubId, prod.name);
      ghost var before := SnapshotOf(state);
      success, halt := false, false;
      var error, isRateLimit := "", false;
      match crawl(prod.homepageUrl) {
        case CrawlFailed(m) =>
          error := if Truthy(m) then m.value else "Crawl failed";
        case ErrorEnvelope(c) =>
          error := c.GetOr("Unknown error");
          isRateLimit := Contains(Lower(error), "rate limit");
        case BadJson(e) =>
          error := "JSON parse error: " + e;
        case ParseRaised(e) =>
          error := e;
          isRateLimit := Contains(Lower(e), "rate limit") || Contains(e, "429");
        case NoContent =>
          error := "No content extracted";
        case Parsed =>
          success := true;
        case Raised(e) =>
          error := e;
          isRateLimit := Contains(Lower(e), "rate limit") || Contains(e, "429");
      }
      if success {
        state.MarkExtractionSuccess(key, now);
        SuccessMarked(before, SnapshotOf(state), key, now);
      } else {
        assert VerdictOf(crawl(prod.homepageUrl)) == Failure(error, isRateLimit);
        halt := state.MarkExtractionFailure(key, error, isRateLimit, now);
        FailureMarked(before, SnapshotOf(state), key, error, isRateLimit, now, halt);
      }
    }

    /**
     * `extract_product_info`: phase 3 over the products that have a homepage and no
     * extraction yet, as they stand when it starts; it stops as soon as the run is halted.
     * Returns the products extracted.
     */
    method ExtractProductInfo(crawl: Extraction, now: string) returns (r: PhaseEnd)
      requires state.Valid()
      modifies state
      ensures state.Valid()
      ensures !Truthy(openaiApiKey) ==> r == KeyRequired(OpenAiKeyMessage) && SnapshotOf(state) == old(SnapshotOf(state))
      ensures Truthy(openaiApiKey) ==>
                var t := old(SnapshotOf(state));
                var e := ExtractionAfter(t, ExtractionQueue(t), crawl, now, |ExtractionQueue(t)|);
                SnapshotOf(state) == e.snap && r == Completed(e.extracted)
    {
      if !Truthy(openaiApiKey) {
        return KeyRequired(OpenAiKeyMessage);
      }
      ghost var t0 := SnapshotOf(state);
      var products := state.ProductsNeedingExtraction();
      assert products == ExtractionQueue(t0);
      if |products| == 0 {
        assert SnapshotOf(state) == t0;
        return Completed(0);
      }
      var extracted := ExtractAll(products, crawl, now);
      return Completed(extracted);
    }

    /**
     * `run` on the state as loaded: the phases `plan` does not skip, in order; `exchanges[i]`,
     * `find` and `crawl` are what the services answer in phases 1, 2 and 3.
     */
    method Run(plan: Plan, seeds: seq<string>, exchanges: seq<seq<SaasHub.Exchange>>, find: Finder, crawl: Extraction,
               now: string)
      returns (r: RunEnd)
      requires state.Valid()
      requires |exchanges| == |seeds| && SaasHub.EnoughAnswers(exchanges)
      modifies state
      ensures state.Valid()
      ensures RunResult(SnapshotOf(state), r)
              == RunAfter(old(SnapshotOf(state)), plan, Truthy(saashubApiKey), Truthy(openaiApiKey), seeds,
                          Answers(exchanges, Some(maxProductsPerSeed)), find, crawl, now)
    {
      ghost var t0 := SnapshotOf(state);
      ghost var answers := Answers(exchanges, Some(maxProductsPerSeed));
      if state.ShouldHalt() {
        StatsAgree(state);
        return AlreadyHalted(state.GetStats());
      }
      var discovered, homepages, extracted := 0, 0, 0;
      ghost var p1 := Skipped(t0);
      if !plan.skipDiscovery {
        var end := DiscoverProducts(seeds, exchanges, now);
        p1 := DiscoveryPhase(t0, Truthy(saashubApiKey), seeds, answers, now);
        assert Phase(SnapshotOf(state), end) == p1;
        if end.KeyRequired? {
          return KeyMissing(end.message);
        }
        discovered := end.count;
        if state.ShouldHalt() {
          StatsAgree(state);
          return Finished(state.GetStats(), Counts(discovered, 0, 0));
        }
      }
      ghost var p2 := Skipped(p1.snap);
      if !plan.skipHomepages {
        homepages := DiscoverHomepages(find);
        p2 := HomepagePhase(p1.snap, find);
        assert Phase(SnapshotOf(state), Completed(homepages)) == p2;
        // Phase 2 leaves the halt latch as it found it, open, so there is no halt to return on.
        assert !state.halted;
      }
      if !plan.skipExtraction {
        var end := ExtractProductInfo(crawl, now);
        assert Phase(SnapshotOf(state), end) == ExtractionPhase(p2.snap, Truthy(openaiApiKey), crawl, now);
        if end.KeyRequired? {
          return KeyMissing(end.message);
        }
        extracted := end.count;
      }
      StatsAgree(state);
      return Finished(state.GetStats(), Counts(discovered, homepages, extracted));
    }

    /** The loop of `extract_product_info` over `products`; returns the products extracted. */
    method ExtractAll(products: seq<ProductState>, crawl: Extraction, now: string) returns (extracted: nat)
      requires state.Valid()
      modifies state
      ensures state.Valid()
      ensures ExtractionAfter(old(SnapshotOf(state)), products, crawl, now, |products|) == ExtractionRun(SnapshotOf(state), extracted)
    {
      ghost var t0 := SnapshotOf(state);
      extracted := 0;
      var i := 0;
      while i < |products|
        invariant i <= |products|
        invariant state.Valid()
        invariant ExtractionAfter(t0, products, crawl, now, i) == ExtractionRun(SnapshotOf(state), extracted)
      {
        if state.ShouldHalt() {
          HaltedStays(t0, products, crawl, now, i, |products|);
          break;
        }
        ghost var before := SnapshotOf(state);
        var success, halt := ExtractProduct(products[i], crawl, now);
        ExtractionNext(t0, products, crawl, now, i, before, extracted, SnapshotOf(state), success);
        if success {
          extracted := extracted + 1;
        }
        if halt {
          HaltedStays(t0, products, crawl, now, i + 1, |products|);
          break;
        }
        i := i + 1;
      }
    }
  }

  /** `GetStats` reports what `StatsOf` computes from the state's value. */
  lemma StatsAgree(s: CollectionState)
    requires s.Valid()
    ensures s.GetStats() == StatsOf(SnapshotOf(s))
  {
  }

  /** What `MarkSeedProcessed` promises is the step `WithSeed` takes. */
  lemma SeedMarked(t: Snapshot, t': Snapshot, seed: string)
    requires t'.processedSeeds == if seed in t.processedSeeds then t.processedSeeds else t.processedSeeds + [seed]
    requires t'.keys == t.keys && t'.products == t.products
    requires t'.consecutiveLlmFailures == t.consecutiveLlmFailures && t'.totalLlmFailures == t.totalLlmFailures
    requires t'.lastLlmError == t.lastLlmError && t'.halted == t.halted && t'.haltReason == t.haltReason
    requires t'.totalDiscovered == t.totalDiscovered && t'.totalExtracted == t.totalExtracted
    requires t'.totalFailed == t.totalFailed
    requires t'.runId == t.runId && t'.startedAt == t.startedAt && t'.updatedAt == t.updatedAt
    ensures t' == WithSeed(t, seed)
  {
  }

  /** What `AddProduct` promises without a homepage is the step `WithProduct` takes. */
  lemma ProductFiled(t: Snapshot, t': Snapshot, key: string, p: ProductState)
    requires key in t.products ==>
               t'.keys == t.keys && t'.products == t.products[key := Refreshed(t.products[key], None)]
               && t'.totalDiscovered == t.totalDiscovered
    requires key !in t.products ==>
               t'.keys == t.keys + [key] && t'.products == t.products[key := p]
               && t'.totalDiscovered == t.totalDiscovered + 1
    requires t'.processedSeeds == t.processedSeeds
    requires t'.consecutiveLlmFailures == t.consecutiveLlmFailures && t'.totalLlmFailures == t.totalLlmFailures
    requires t'.lastLlmError == t.lastLlmError && t'.halted == t.halted && t'.haltReason == t.haltReason
    requires t'.totalExtracted == t.totalExtracted && t'.totalFailed == t.totalFailed
    requires t'.runId == t.runId && t'.startedAt == t.startedAt && t'.updatedAt == t.updatedAt
    ensures t' == WithProduct(t, key, p)
  {
    if key in t.products {
      assert t.products[key := t.products[key]] == t.products;
    }
  }

  /** Once a rate limit stopped phase 1, the seeds after it change nothing. */
  lemma {:induction false} StoppedStays(t: Snapshot, seeds: seq<string>, answers: seq<SaasHub.AlternativesResult>,
                                        now: string, i: nat, n: nat)
    requires i <= n <= |seeds| <= |answers|
    requires DiscoveryAfter(t, seeds, answers, now, i).stopped
    ensures DiscoveryAfter(t, seeds, answers, now, n) == DiscoveryAfter(t, seeds, answers, now, i)
    decreases n - i
  {
    if i < n {
      StoppedStays(t, seeds, answers, now, i, n - 1);
    }
  }

  // ---------------------------------------------------------------------------
  // What phase 1 does to the state

  /** `u` keeps every product of `t` as it was. */
  ghost predicate KeepsProducts(t: Snapshot, u: Snapshot) {
    forall k :: k in t.products ==> k in u.products && u.products[k] == t.products[k]
  }

  /** `u` has the LLM bookkeeping of `t`. */
  predicate SameLlmBookkeeping(t: Snapshot, u: Snapshot) {
    && u.consecutiveLlmFailures == t.consecutiveLlmFailures && u.totalLlmFailures == t.totalLlmFailures
    && u.lastLlmError == t.lastLlmError && u.totalExtracted == t.totalExtracted && u.totalFailed == t.totalFailed
  }

  /** One `add_product` without a homepage, on the value. */
  lemma ProductStep(t: Snapshot, key: string, p: ProductState)
    ensures var u := WithProduct(t, key, p);
      && |t.keys| <= |u.keys| && u.keys[..|t.keys|] == t.keys
      && u.totalDiscovered - t.totalDiscovered == |u.keys| - |t.keys| <= 1
      && key in u.products && KeepsProducts(t, u)
      && u.processedSeeds == t.processedSeeds && u.halted == t.halted && u.haltReason == t.haltReason
      && SameLlmBookkeeping(t, u)
    ensures Consistent(t) ==> Consistent(WithProduct(t, key, p))
    ensures Filed(t.products) && ProductKey(p.saashubId, p.name) == key ==> Filed(WithProduct(t, key, p).products)
  {
    if key !in t.products {
      assert (t.keys + [key])[..|t.keys|] == t.keys;
      if Consistent(t) {
        DistinctAppend(t.keys, key);
      }
      if Filed(t.products) && ProductKey(p.saashubId, p.name) == key {
        FiledAfterPut(t.products, key, p);
      }
    }
  }

  /**
   * Filing rows only appends keys, and adds as many products as it appends keys, at most
   * one per row; the seeds, the halt latch and the LLM bookkeeping are as they were.
   */
  lemma {:induction false} RowsAppendKeys(t: Snapshot, items: seq<SaasHub.Alternative>, seed: string, now: string, j: nat)
    requires j <= |items|
    ensures var r := RowsAdded(t, items, seed, now, j);
      && |t.keys| <= |r.keys| && r.keys[..|t.keys|] == t.keys
      && r.totalDiscovered - t.totalDiscovered == |r.keys| - |t.keys| <= j
      && r.processedSeeds == t.processedSeeds && r.halted == t.halted && r.haltReason == t.haltReason
      && SameLlmBookkeeping(t, r)
  {
    if j > 0 {
      RowsAppendKeys(t, items, seed, now, j - 1);
      var r' := RowsAdded(t, items, seed, now, j - 1);
      ProductStep(r', AltKey(items[j - 1]), AltProduct(items[j - 1], seed, now));
      assert RowsAdded(t, items, seed, now, j).keys[..|r'.keys|] == r'.keys;
      assert r'.keys[..|t.keys|] == t.keys;
    }
  }

  /** After filing rows every row's key is filed. */
  lemma {:induction false} RowsFiled(t: Snapshot, items: seq<SaasHub.Alternative>, seed: string, now: string, j: nat)
    requires j <= |items|
    ensures forall k :: 0 <= k < j ==> AltKey(items[k]) in RowsAdded(t, items, seed, now, j).products
  {
    if j > 0 {
      RowsFiled(t, items, seed, now, j - 1);
      var r := RowsAdded(t, items, seed, now, j - 1);
      var u := RowsAdded(t, items, seed, now, j);
      assert u == WithProduct(r, AltKey(items[j - 1]), AltProduct(items[j - 1], seed, now));
      assert AltKey(items[j - 1]) in u.products;
      forall k | 0 <= k < j
        ensures AltKey(items[k]) in u.products
      {
        if k < j - 1 {
          assert AltKey(items[k]) in r.products;
        }
      }
    }
  }

  /** Filing rows leaves the products already there untouched. */
  lemma {:induction false} RowsKeepProducts(t: Snapshot, items: seq<SaasHub.Alternative>, seed: string, now: string, j: nat)
    requires j <= |items|
    ensures KeepsProducts(t, RowsAdded(t, items, seed, now, j))
  {
    if j > 0 {
      RowsKeepProducts(t, items, seed, now, j - 1);
      var r := RowsAdded(t, items, seed, now, j - 1);
      ProductStep(r, AltKey(items[j - 1]), AltProduct(items[j - 1], seed, now));
    }
  }

  /** Filing rows keeps the key list duplicate-free and every product under its own key. */
  lemma {:induction false} RowsKeepFiling(t: Snapshot, items: seq<SaasHub.Alternative>, seed: string, now: string, j: nat)
    requires j <= |items|
    ensures Consistent(t) ==> Consistent(RowsAdded(t, items, seed, now, j))
    ensures Filed(t.products) ==> Filed(RowsAdded(t, items, seed, now, j).products)
  {
    if j > 0 {
      RowsKeepFiling(t, items, seed, now, j - 1);
      ProductStep(RowsAdded(t, items, seed, now, j - 1), AltKey(items[j - 1]), AltProduct(items[j - 1], seed, now));
    }
  }

  /** The answer is the rate-limit error of `get_alternatives`. */
  predicate RateLimited(answer: SaasHub.AlternativesResult) {
    answer.AlternativesFailed? && answer.failure.RateLimitFailure?
  }

  /** One seed of phase 1, on the value. */
  lemma SeedStepFacts(d: Discovery, seed: string, answer: SaasHub.AlternativesResult, now: string)
    ensures var e := SeedStep(d, seed, answer, now);
      var reached := !d.stopped && seed !in d.snap.processedSeeds;
      && (e.snap.processedSeeds == if reached && answer.Alternatives? then d.snap.processedSeeds + [seed] else d.snap.processedSeeds)
      && (reached && answer.Alternatives? ==>
            forall k :: 0 <= k < |answer.items| ==> AltKey(answer.items[k]) in e.snap.products)
      && KeepsProducts(d.snap, e.snap)
      && e.snap.totalDiscovered - d.snap.totalDiscovered <= e.discovered - d.discovered
      && e.stopped == (d.stopped || (reached && RateLimited(answer)))
      && e.snap.halted == (d.snap.halted || (reached && RateLimited(answer)))
      && e.snap.haltReason == (if reached && RateLimited(answer) then Some(RateLimitReason + SaasHub.Message(answer.failure))
                               else d.snap.haltReason)
      && SameLlmBookkeeping(d.snap, e.snap)
    ensures Consistent(d.snap) ==> Consistent(SeedStep(d, seed, answer, now).snap)
    ensures Filed(d.snap.products) ==> Filed(SeedStep(d, seed, answer, now).snap.products)
  {
    if !d.stopped && seed !in d.snap.processedSeeds && answer.Alternatives? {
      var items := answer.items;
      RowsAppendKeys(d.snap, items, seed, now, |items|);
      RowsFiled(d.snap, items, seed, now, |items|);
      RowsKeepProducts(d.snap, items, seed, now, |items|);
      RowsKeepFiling(d.snap, items, seed, now, |items|);
    }
  }

  /** Phase 1 leaves every product already stored untouched. */
  lemma {:induction false} DiscoveryKeepsProducts(t: Snapshot, seeds: seq<string>, answers: seq<SaasHub.AlternativesResult>,
                                                  now: string, n: nat)
    requires n <= |seeds| <= |answers|
    ensures KeepsProducts(t, DiscoveryAfter(t, seeds, answers, now, n).snap)
  {
    if n > 0 {
      DiscoveryKeepsProducts(t, seeds, answers, now, n - 1);
      var d' := DiscoveryAfter(t, seeds, answers, now, n - 1);
      SeedStepFacts(d', seeds[n - 1], answers[n - 1], now);
      var d := DiscoveryAfter(t, seeds, answers, now, n);
      forall k | k in t.products
        ensures k in d.snap.products && d.snap.products[k] == t.products[k]
      {
        assert k in d'.snap.products;
      }
    }
  }

  /**
   * Phase 1 only appends to the processed seeds, and a seed it marks is one whose
   * alternatives came, each of them filed by then.
   */
  lemma {:induction false} DiscoverySeeds(t: Snapshot, seeds: seq<string>, answers: seq<SaasHub.AlternativesResult>,
                                          now: string, n: nat)
    requires n <= |seeds| <= |answers|
    ensures var d := DiscoveryAfter(t, seeds, answers, now, n);
      && |t.processedSeeds| <= |d.snap.processedSeeds| && d.snap.processedSeeds[..|t.processedSeeds|] == t.processedSeeds
      && (forall s :: s in d.snap.processedSeeds && s !in t.processedSeeds ==>
            exists i :: 0 <= i < n && seeds[i] == s && answers[i].Alternatives? &&
              forall k :: 0 <= k < |answers[i].items| ==> AltKey(answers[i].items[k]) in d.snap.products)
  {
    if n > 0 {
      DiscoverySeeds(t, seeds, answers, now, n - 1);
      var d' := DiscoveryAfter(t, seeds, answers, now, n - 1);
      SeedStepFacts(d', seeds[n - 1], answers[n - 1], now);
      var d := DiscoveryAfter(t, seeds, answers, now, n);
      assert d.snap.processedSeeds[..|d'.snap.processedSeeds|] == d'.snap.processedSeeds;
      assert d'.snap.processedSeeds[..|t.processedSeeds|] == t.processedSeeds;
      forall s | s in d.snap.processedSeeds && s !in t.processedSeeds
        ensures exists i :: 0 <= i < n && seeds[i] == s && answers[i].Alternatives? &&
                  forall k :: 0 <= k < |answers[i].items| ==> AltKey(answers[i].items[k]) in d.snap.products
      {
        if s in d'.snap.processedSeeds {
          var i :| 0 <= i < n - 1 && seeds[i] == s && answers[i].Alternatives? &&
                   forall k :: 0 <= k < |answers[i].items| ==> AltKey(answers[i].items[k]) in d'.snap.products;
        } else {
          assert seeds[n - 1] == s;
        }
      }
    }
  }

  /** Phase 1 marks every seed it reaches whose alternatives came. */
  lemma {:induction false} DiscoveryMarksReached(t: Snapshot, seeds: seq<string>, answers: seq<SaasHub.AlternativesResult>,
                                                 now: string, n: nat)
    requires n <= |seeds| <= |answers|
    ensures forall i :: 0 <= i < n && answers[i].Alternatives? && !DiscoveryAfter(t, seeds, answers, now, i).stopped ==>
              seeds[i] in DiscoveryAfter(t, seeds, answers, now, n).snap.processedSeeds
  {
    if n > 0 {
      DiscoveryMarksReached(t, seeds, answers, now, n - 1);
      var d' := DiscoveryAfter(t, seeds, answers, now, n - 1);
      var d := DiscoveryAfter(t, seeds, answers, now, n);
      SeedStepMarks(d', seeds[n - 1], answers[n - 1], now);
      forall i | 0 <= i < n && answers[i].Alternatives? && !DiscoveryAfter(t, seeds, answers, now, i).stopped
        ensures seeds[i] in d.snap.processedSeeds
      {
        if i < n - 1 {
          assert seeds[i] in d'.snap.processedSeeds;
        } else {
          assert !d'.stopped && answers[n - 1].Alternatives?;
        }
      }
    }
  }

  /** One seed of phase 1 keeps the seeds marked, and marks a seed it reaches whose alternatives came. */
  lemma SeedStepMarks(d: Discovery, seed: string, answer: SaasHub.AlternativesResult, now: string)
    ensures forall x :: x in d.snap.processedSeeds ==> x in SeedStep(d, seed, answer, now).snap.processedSeeds
    ensures !d.stopped && answer.Alternatives? ==> seed in SeedStep(d, seed, answer, now).snap.processedSeeds
  {
    if !d.stopped && seed !in d.snap.processedSeeds && answer.Alternatives? {
      RowsAppendKeys(d.snap, answer.items, seed, now, |answer.items|);
    }
  }


  /**
   * Phase 1 halts the run exactly when a rate limit stopped it, with the reason
   * "SaaSHub rate limit: " and the error's text, and only on a seed it actually looked up;
   * otherwise the halt latch and its reason are as they were.
   */
  lemma {:induction false} DiscoveryHalts(t: Snapshot, seeds: seq<string>, answers: seq<SaasHub.AlternativesResult>,
                                          now: string, n: nat)
    requires n <= |seeds| <= |answers|
    ensures var d := DiscoveryAfter(t, seeds, answers, now, n);
      && d.snap.halted == (t.halted || d.stopped)
      && (d.stopped ==>
            && d.snap.haltReason == Some(RateLimitReason + "Rate limit exceeded after 3 attempts.")
            && exists i :: 0 <= i < n && RateLimited(answers[i]))
      && (!d.stopped ==>
            && d.snap.haltReason == t.haltReason
            && forall i :: 0 <= i < n && RateLimited(answers[i]) ==>
                 seeds[i] in DiscoveryAfter(t, seeds, answers, now, i).snap.processedSeeds)
  {
    if n > 0 {
      DiscoveryHalts(t, seeds, answers, now, n - 1);
      SeedStepFacts(DiscoveryAfter(t, seeds, answers, now, n - 1), seeds[n - 1], answers[n - 1], now);
    }
  }

  /**
   * Phase 1 counts at least one row per product it adds (a row whose key is known is
   * counted too), keeps the key list duplicate-free and every product under its own key,
   * and leaves the LLM bookkeeping alone.
   */
  lemma {:induction false} DiscoveryCounts(t: Snapshot, seeds: seq<string>, answers: seq<SaasHub.AlternativesResult>,
                                           now: string, n: nat)
    requires n <= |seeds| <= |answers|
    ensures var d := DiscoveryAfter(t, seeds, answers, now, n);
      && d.snap.totalDiscovered - t.totalDiscovered <= d.discovered
      && SameLlmBookkeeping(t, d.snap)
      && (Consistent(t) ==> Consistent(d.snap))
      && (Filed(t.products) ==> Filed(d.snap.products))
  {
    if n > 0 {
      DiscoveryCounts(t, seeds, answers, now, n - 1);
      SeedStepFacts(DiscoveryAfter(t, seeds, answers, now, n - 1), seeds[n - 1], answers[n - 1], now);
    }
  }

  // ---------------------------------------------------------------------------
  // What phase 2 does to the products

  /** The products of `queue[..i]` whose SaaSHub URL, as stored before phase 2, leads to a homepage. */
  function FoundCount(products: map<string, ProductState>, queue: seq<string>, find: Finder, i: nat): nat
    requires i <= |queue|
  {
    if i == 0 then 0
    else
      var key := queue[i - 1];
      FoundCount(products, queue, find, i - 1) + (if key in products && Found(find(products[key].saashubUrl)) then 1 else 0)
  }

  /** Phase 2 keeps product `k`, or gives it the homepage its SaaSHub URL leads to; its URL, id and name stay. */
  lemma {:induction false} HomepageKeptAt(products: map<string, ProductState>, queue: seq<string>, find: Finder, n: nat, k: string)
    requires n <= |queue| && k in products
    ensures var r := HomepagesAfter(products, queue, find, n);
      && k in r.products
      && r.products[k].saashubUrl == products[k].saashubUrl
      && r.products[k].saashubId == products[k].saashubId && r.products[k].name == products[k].name
      && (|| r.products[k] == products[k]
          || (Found(find(products[k].saashubUrl))
              && r.products[k] == WithHomepage(products[k], find(products[k].saashubUrl).homepage)))
  {
    if n > 0 {
      HomepageKeptAt(products, queue, find, n - 1, k);
    }
  }

  /** Phase 2 stores no new key and drops none. */
  lemma {:induction false} HomepagesSameKeys(products: map<string, ProductState>, queue: seq<string>, find: Finder, n: nat)
    requires n <= |queue|
    ensures forall k :: k in HomepagesAfter(products, queue, find, n).products <==> k in products
  {
    if n > 0 {
      HomepagesSameKeys(products, queue, find, n - 1);
    }
  }

  /** A product of the queue whose SaaSHub URL leads to a homepage has it after phase 2. */
  lemma {:induction false} HomepageFoundAt(products: map<string, ProductState>, queue: seq<string>, find: Finder, n: nat, j: nat)
    requires j < n <= |queue| && queue[j] in products && Found(find(products[queue[j]].saashubUrl))
    ensures var key := queue[j];
      var r := HomepagesAfter(products, queue, find, n);
      key in r.products && r.products[key] == WithHomepage(products[key], find(products[key].saashubUrl).homepage)
  {
    HomepageKeptAt(products, queue, find, n - 1, queue[j]);
    if j < n - 1 {
      HomepageFoundAt(products, queue, find, n - 1, j);
    }
  }

  /**
   * Phase 2 stores the same keys; a product changes only by getting the homepage its
   * SaaSHub URL leads to, with `homepage_discovered` set, and keeps its URL, id and name.
   */
  lemma {:induction false} HomepagesOnlyFill(products: map<string, ProductState>, queue: seq<string>, find: Finder, n: nat)
    requires n <= |queue|
    ensures var r := HomepagesAfter(products, queue, find, n);
      && (forall k :: k in r.products <==> k in products)
      && forall k :: k in products ==>
           && r.products[k].saashubUrl == products[k].saashubUrl
           && r.products[k].saashubId == products[k].saashubId && r.products[k].name == products[k].name
           && (|| r.products[k] == products[k]
               || (Found(find(products[k].saashubUrl))
                   && r.products[k] == WithHomepage(products[k], find(products[k].saashubUrl).homepage)))
  {
    HomepagesSameKeys(products, queue, find, n);
    forall k | k in products {
      HomepageKeptAt(products, queue, find, n, k);
    }
  }

  /** The count phase 2 returns is the number of lookups, on the URLs stored before it, that found a homepage. */
  lemma {:induction false} HomepagesCount(products: map<string, ProductState>, queue: seq<string>, find: Finder, n: nat)
    requires n <= |queue|
    ensures HomepagesAfter(products, queue, find, n).discovered == FoundCount(products, queue, find, n) <= n
  {
    if n > 0 {
      HomepagesCount(products, queue, find, n - 1);
      HomepagesOnlyFill(products, queue, find, n - 1);
    }
  }

  /** Every product of the queue whose SaaSHub URL leads to a homepage has it afterwards and no longer waits for one. */
  lemma HomepagesFound(products: map<string, ProductState>, queue: seq<string>, find: Finder, n: nat)
    requires n <= |queue|
    ensures var r := HomepagesAfter(products, queue, find, n);
      && (forall k :: k in r.products <==> k in products)
      && forall j :: 0 <= j < n && queue[j] in products && Found(find(products[queue[j]].saashubUrl)) ==>
           && r.products[queue[j]].homepageUrl == find(products[queue[j]].saashubUrl).homepage
           && !NeedsHomepage(r.products[queue[j]])
  {
    HomepagesSameKeys(products, queue, find, n);
    forall j | 0 <= j < n && queue[j] in products && Found(find(products[queue[j]].saashubUrl)) {
      HomepageFoundAt(products, queue, find, n, j);
    }
  }

  // ---------------------------------------------------------------------------
  // What phase 3 does to the state

  /** What `MarkExtractionSuccess` promises is the step `WithSuccess` takes. */
  lemma SuccessMarked(t: Snapshot, t': Snapshot, key: string, now: string)
    requires key in t.products ==>
               && t'.products == t.products[key := t.products[key].(
                    extracted := true, extractedAt := Some(now), extractionAttempts := t.products[key].extractionAttempts + 1)]
               && t'.totalExtracted == t.totalExtracted + 1 && t'.consecutiveLlmFailures == 0
    requires key !in t.products ==>
               t'.products == t.products && t'.totalExtracted == t.totalExtracted
               && t'.consecutiveLlmFailures == t.consecutiveLlmFailures
    requires t'.keys == t.keys && t'.processedSeeds == t.processedSeeds
    requires t'.totalLlmFailures == t.totalLlmFailures && t'.lastLlmError == t.lastLlmError
    requires t'.halted == t.halted && t'.haltReason == t.haltReason
    requires t'.totalDiscovered == t.totalDiscovered && t'.totalFailed == t.totalFailed
    requires t'.runId == t.runId && t'.startedAt == t.startedAt && t'.updatedAt == t.updatedAt
    ensures t' == WithSuccess(t, key, now)
  {
  }

  /** What `MarkExtractionFailure` promises, `halt` being its answer, is the step `WithFailure` takes. */
  lemma FailureMarked(t: Snapshot, t': Snapshot, key: string, error: string, isRateLimit: bool, now: string, halt: bool)
    requires key in t.products ==>
               t'.products == t.products[key := t.products[key].(
                 extractionError := Some(error), extractionAttempts := t.products[key].extractionAttempts + 1,
                 lastAttemptAt := Some(now))]
    requires key !in t.products ==> t'.products == t.products
    requires t'.totalFailed == t.totalFailed + 1 && t'.totalLlmFailures == t.totalLlmFailures + 1
    requires t'.lastLlmError == Some(error)
    requires t'.consecutiveLlmFailures == t.consecutiveLlmFailures + (if isRateLimit then 1 else 0)
    requires halt <==> isRateLimit && t'.consecutiveLlmFailures >= HaltThreshold
    requires halt ==> t'.halted && t'.haltReason == Some(HaltMessage(t'.consecutiveLlmFailures, error))
    requires !halt ==> t'.halted == t.halted && t'.haltReason == t.haltReason
    requires t'.keys == t.keys && t'.processedSeeds == t.processedSeeds
    requires t'.totalDiscovered == t.totalDiscovered && t'.totalExtracted == t.totalExtracted
    requires t'.runId == t.runId && t'.startedAt == t.startedAt && t'.updatedAt == t.updatedAt
    ensures t' == WithFailure(t, key, error, isRateLimit, now)
  {
  }

  /** One more product of phase 3: `next` is what the verdict on product `items[i]` makes of `current`. */
  lemma ExtractionNext(t: Snapshot, items: seq<ProductState>, crawl: Extraction, now: string, i: nat,
                       current: Snapshot, extracted: nat, next: Snapshot, success: bool)
    requires i < |items|
    requires ExtractionAfter(t, items, crawl, now, i) == ExtractionRun(current, extracted)
    requires !current.halted
    requires next == ExtractionStep(current, items[i], crawl, now)
    requires success == VerdictOf(crawl(items[i].homepageUrl)).Success?
    ensures ExtractionAfter(t, items, crawl, now, i + 1) == ExtractionRun(next, if success then extracted + 1 else extracted)
  {
  }

  /** Once the run halted, the products after it are not attempted. */
  lemma {:induction false} HaltedStays(t: Snapshot, items: seq<ProductState>, crawl: Extraction, now: string, i: nat, n: nat)
    requires i <= n <= |items|
    requires ExtractionAfter(t, items, crawl, now, i).snap.halted
    ensures ExtractionAfter(t, items, crawl, now, n) == ExtractionAfter(t, items, crawl, now, i)
    decreases n - i
  {
    if i < n {
      HaltedStays(t, items, crawl, now, i, n - 1);
    }
  }

  /** Phase 3 changes only extraction fields and the LLM bookkeeping: keys, filing and seeds stay. */
  lemma StepKeepsFiling(t: Snapshot, p: ProductState, crawl: Extraction, now: string)
    ensures var u := ExtractionStep(t, p, crawl, now);
      && u.keys == t.keys && (forall k :: k in u.products <==> k in t.products)
      && (Consistent(t) ==> Consistent(u))
      && (Filed(t.products) ==> Filed(u.products))
      && u.processedSeeds == t.processedSeeds && u.totalDiscovered == t.totalDiscovered
      && (t.halted ==> u.halted)
  {
  }

  /** Phase 3 keeps the keys, the stored products' filing, the seeds and the discovery count. */
  lemma {:induction false} ExtractionKeepsFiling(t: Snapshot, items: seq<ProductState>, crawl: Extraction, now: string, i: nat)
    requires i <= |items|
    ensures var e := ExtractionAfter(t, items, crawl, now, i);
      && e.snap.keys == t.keys && (forall k :: k in e.snap.products <==> k in t.products)
      && (Consistent(t) ==> Consistent(e.snap))
      && (Filed(t.products) ==> Filed(e.snap.products))
      && e.snap.processedSeeds == t.processedSeeds && e.snap.totalDiscovered == t.totalDiscovered
  {
    if i > 0 {
      ExtractionKeepsFiling(t, items, crawl, now, i - 1);
      var r := ExtractionAfter(t, items, crawl, now, i - 1);
      if !r.snap.halted {
        StepKeepsFiling(r.snap, items[i - 1], crawl, now);
      }
    }
  }

  /** Phase 3 stores no product and drops none. */
  lemma {:induction false} ExtractionSameProducts(t: Snapshot, items: seq<ProductState>, crawl: Extraction, now: string, i: nat)
    requires i <= |items|
    ensures forall k :: k in ExtractionAfter(t, items, crawl, now, i).snap.products <==> k in t.products
  {
    if i > 0 {
      ExtractionSameProducts(t, items, crawl, now, i - 1);
    }
  }

  /** The verdict on product `items[j]` is a rate-limit failure. */
  predicate RateLimitedAt(items: seq<ProductState>, crawl: Extraction, j: nat)
    requires j < |items|
  {
    var v := VerdictOf(crawl(items[j].homepageUrl));
    v.Failure? && v.isRateLimit
  }

  /**
   * When every product is filed in the state, each success is counted in `total_extracted`,
   * and each product attempted is counted once, as a success or as a failure; every product
   * is attempted unless the run halted.
   */
  lemma {:induction false} ExtractionCounts(t: Snapshot, items: seq<ProductState>, crawl: Extraction, now: string, i: nat)
    requires i <= |items|
    requires forall p :: p in items ==> ProductKey(p.saashubId, p.name) in t.products
    ensures var e := ExtractionAfter(t, items, crawl, now, i);
      && e.snap.totalExtracted == t.totalExtracted + e.extracted
      && e.extracted + (e.snap.totalFailed - t.totalFailed) <= i
      && (!e.snap.halted ==> e.extracted + (e.snap.totalFailed - t.totalFailed) == i)
  {
    if i > 0 {
      ExtractionCounts(t, items, crawl, now, i - 1);
      ExtractionSameProducts(t, items, crawl, now, i - 1);
      var r := ExtractionAfter(t, items, crawl, now, i - 1);
      var e := ExtractionAfter(t, items, crawl, now, i);
      if r.snap.halted {
        assert e == r;
      } else {
        var p := items[i - 1];
        assert p in items;
        assert ProductKey(p.saashubId, p.name) in r.snap.products;
        StepCounts(r.snap, p, crawl, now);
        assert e.snap == ExtractionStep(r.snap, p, crawl, now);
        assert e.extracted == if VerdictOf(crawl(p.homepageUrl)).Success? then r.extracted + 1 else r.extracted;
      }
    }
  }

  /** One product whose key is stored: a success counts as extracted, anything else as failed. */
  lemma StepCounts(t: Snapshot, p: ProductState, crawl: Extraction, now: string)
    requires ProductKey(p.saashubId, p.name) in t.products
    ensures var u := ExtractionStep(t, p, crawl, now);
      && (VerdictOf(crawl(p.homepageUrl)).Success? ==> u.totalExtracted == t.totalExtracted + 1 && u.totalFailed == t.totalFailed)
      && (VerdictOf(crawl(p.homepageUrl)).Failure? ==> u.totalExtracted == t.totalExtracted && u.totalFailed == t.totalFailed + 1)
  {
  }

  /**
   * Phase 3 leaves a halted run as it is. It halts a run only on a rate-limit verdict, with
   * three or more in a row and the reason naming the count and the last error; a run it
   * does not halt keeps its halt reason.
   */
  lemma {:induction false} ExtractionHalts(t: Snapshot, items: seq<ProductState>, crawl: Extraction, now: string, i: nat)
    requires i <= |items|
    ensures var e := ExtractionAfter(t, items, crawl, now, i);
      && (t.halted ==> e == ExtractionRun(t, 0))
      && (!t.halted && e.snap.halted ==>
            && e.snap.consecutiveLlmFailures >= HaltThreshold && e.snap.lastLlmError.Some?
            && e.snap.haltReason == Some(HaltMessage(e.snap.consecutiveLlmFailures, e.snap.lastLlmError.value))
            && exists j :: 0 <= j < i && RateLimitedAt(items, crawl, j))
      && (!e.snap.halted ==> e.snap.haltReason == t.haltReason)
  {
    if i > 0 {
      ExtractionHalts(t, items, crawl, now, i - 1);
      var r := ExtractionAfter(t, items, crawl, now, i - 1);
      if !r.snap.halted && ExtractionAfter(t, items, crawl, now, i).snap.halted {
        assert RateLimitedAt(items, crawl, i - 1);
      }
    }
  }

  /** Each product waiting for extraction is recorded under the very key it is stored under. */
  lemma QueueFiled(t: Snapshot)
    requires Consistent(t) && Filed(t.products)
    ensures var items := ExtractionQueue(t);
      forall i :: 0 <= i < |items| ==>
        ProductKey(items[i].saashubId, items[i].name) == KeysNeedingExtraction(t.keys, t.products)[i]
    ensures forall p :: p in ExtractionQueue(t) ==> ProductKey(p.saashubId, p.name) in t.products
  {
    var items := ExtractionQueue(t);
    var keys := KeysNeedingExtraction(t.keys, t.products);
    forall i | 0 <= i < |items|
      ensures ProductKey(items[i].saashubId, items[i].name) == keys[i]
    {
      assert keys[i] in keys;
    }
    forall p | p in items
      ensures ProductKey(p.saashubId, p.name) in t.products
    {
      var i :| 0 <= i < |items| && items[i] == p;
      assert keys[i] in keys;
    }
  }

  /**
   * Phase 3 on a consistent state whose products are filed under their own keys: the
   * products extracted are exactly what `total_extracted` grows by, and each product it
   * attempts is counted once as a success or a failure.
   */
  lemma ExtractionPhaseCounts(t: Snapshot, crawl: Extraction, now: string)
    requires Consistent(t) && Filed(t.products)
    ensures var p := ExtractionPhase(t, true, crawl, now);
      && p.end.Completed?
      && p.snap.totalExtracted == t.totalExtracted + p.end.count
      && p.end.count + (p.snap.totalFailed - t.totalFailed) <= |ExtractionQueue(t)|
      && (!p.snap.halted ==> p.end.count + (p.snap.totalFailed - t.totalFailed) == |ExtractionQueue(t)|)
  {
    QueueFiled(t);
    ExtractionCounts(t, ExtractionQueue(t), crawl, now, |ExtractionQueue(t)|);
  }

  /**
   * The verdicts: only parsed facts are a success; only an error envelope or an exception
   * can be a rate limit, the envelope on "rate limit" in any case, the exception also on
   * "429"; a failed crawl always records some error text.
   */
  lemma VerdictClassification(a: Attempt)
    ensures VerdictOf(a).Success? <==> a.Parsed?
    ensures VerdictOf(a).Failure? && VerdictOf(a).isRateLimit ==> a.ErrorEnvelope? || a.ParseRaised? || a.Raised?
    ensures a.ErrorEnvelope? ==> VerdictOf(a).isRateLimit == Contains(Lower(VerdictOf(a).error), "rate limit")
    ensures a.ParseRaised? || a.Raised? ==> VerdictOf(a) == Failure(a.error, RateLimitText(a.error))
    ensures a.CrawlFailed? ==> VerdictOf(a).error != ""
  {
  }

  /** A failure phase 3 records as a rate limit is one `_is_rate_limit_error` also recognises, for every source. */
  lemma RateLimitVerdictAgrees(a: Attempt, source: RateLimiter.Source)
    ensures VerdictOf(a).Failure? && VerdictOf(a).isRateLimit ==> RateLimiter.IsRateLimitError(VerdictOf(a).error, source)
  {
    var v := VerdictOf(a);
    if v.Failure? && v.isRateLimit && !Contains(Lower(v.error), "rate limit") {
      assert Contains(v.error, "429");
      ContainsLowered(v.error, "429");
    }
  }

  /** The converse fails: an OpenAI quota error is a rate limit to `_is_rate_limit_error` but not to phase 3. */
  lemma QuotaIsNotRecordedAsRateLimit()
    ensures RateLimiter.IsRateLimitError("Quota", RateLimiter.OpenAiApi)
    ensures VerdictOf(Raised("Quota")) == Failure("Quota", false)
  {
    RateLimiter.QuotaIsOpenAiOnly();
    assert Lower("Quota") == "quota";
    RateLimiter.QuotaIndicators();
    RateLimiter.NotContains("Quota", "429");
  }

  /** Lower-casing keeps every occurrence of a lower-case text. */
  lemma ContainsLowered(s: string, sub: string)
    requires Contains(s, sub) && Lower(sub) == sub
    ensures Contains(Lower(s), sub)
  {
    var i := ContainsAt(s, sub);
    var w := Lower(s)[i..i + |sub|];
    assert forall k :: 0 <= k < |sub| ==> w[k] == LowerChar(s[i + k]) == LowerChar(sub[k]);
    assert w == Lower(sub);
    ContainsFromAt(Lower(s), sub, i);
  }

  // ---------------------------------------------------------------------------
  // What the whole run does

  /** A run that was halted before does nothing and reports the statistics as they are. */
  lemma HaltedRunDoesNothing(t: Snapshot, plan: Plan, hasSaasHubKey: bool, hasOpenAiKey: bool, seeds: seq<string>,
                             answers: seq<SaasHub.AlternativesResult>, find: Finder, crawl: Extraction, now: string)
    requires Consistent(t) && |seeds| <= |answers| && t.halted
    ensures RunAfter(t, plan, hasSaasHubKey, hasOpenAiKey, seeds, answers, find, crawl, now)
            == RunResult(t, AlreadyHalted(StatsOf(t)))
  {
  }

  /** Skipping every phase changes nothing and counts nothing. */
  lemma SkippingAllChangesNothing(t: Snapshot, hasSaasHubKey: bool, hasOpenAiKey: bool, seeds: seq<string>,
                                  answers: seq<SaasHub.AlternativesResult>, find: Finder, crawl: Extraction, now: string)
    requires Consistent(t) && |seeds| <= |answers| && !t.halted
    ensures RunAfter(t, Plan(true, true, true), hasSaasHubKey, hasOpenAiKey, seeds, answers, find, crawl, now)
            == RunResult(t, Finished(StatsOf(t), Counts(0, 0, 0)))
  {
  }

  /** A SaaSHub rate limit in phase 1 ends the run there: no homepages are looked up and nothing is extracted. */
  lemma DiscoveryHaltEndsRun(t: Snapshot, plan: Plan, hasOpenAiKey: bool, seeds: seq<string>,
                             answers: seq<SaasHub.AlternativesResult>, find: Finder, crawl: Extraction, now: string)
    requires Consistent(t) && |seeds| <= |answers| && !t.halted && !plan.skipDiscovery
    requires DiscoveryAfter(t, seeds, answers, now, |seeds|).stopped
    ensures var d := DiscoveryAfter(t, seeds, answers, now, |seeds|);
      && d.snap.halted
      && RunAfter(t, plan, true, hasOpenAiKey, seeds, answers, find, crawl, now)
         == RunResult(d.snap, Finished(StatsOf(d.snap), Counts(d.discovered, 0, 0)))
  {
    DiscoveryHalts(t, seeds, answers, now, |seeds|);
    DiscoveryCounts(t, seeds, answers, now, |seeds|);
  }

  /** A run keeps the key list in step with the products and every product under its own key. */
  lemma RunKeepsFiling(t: Snapshot, plan: Plan, hasSaasHubKey: bool, hasOpenAiKey: bool, seeds: seq<string>,
                       answers: seq<SaasHub.AlternativesResult>, find: Finder, crawl: Extraction, now: string)
    requires Consistent(t) && Filed(t.products) && |seeds| <= |answers|
    ensures var r := RunAfter(t, plan, hasSaasHubKey, hasOpenAiKey, seeds, answers, find, crawl, now);
      Consistent(r.snap) && Filed(r.snap.products)
  {
  }
}

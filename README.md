# Market-intel collection pipeline, modelled in Dafny

This project models the bookkeeping behind the resumable market-intelligence collector of
`crawl4ai/market_intel`. The collector runs in three phases:
1. It takes SaaSHub's alternatives for each seed query and files them as products.
2. It looks up each product's homepage on its SaaSHub page.
3. It has a language model extract product facts from each homepage.

A run can halt, is saved, and resumes where it stopped. Beside the collector sit:
- a target store with URL deduplication;
- a per-source rate limiter with back-off;
- the SaaSHub client's retry policy;
- Product Hunt's paginated listings and its homepage scoring.

Everything the program does over the network or in a browser becomes an input to the model:
- API replies and pages are sequences of answers;
- the crawler and the regular-expression search are functions;
- the language model's result is a datatype.

The clock is a parameter. The model states how each operation changes the state it owns, and
proves what the program promises about it.

One Dafny module stands for each source file:

| Module | Source | Form |
|---|---|---|
| `Targets` | `targets.py` | class `TargetManager` over a map of targets, a URL index and the insertion order |
| `State` | `state.py` | class `CollectionState` with the product map, the counters and the halt latch |
| `RateLimiter` | `rate_limiter.py` | class `Limiter` over a map of per-source states; the retry loop proved against `Retry` |
| `ProductHunt` | `producthunt.py` | the listing loop, as a fetch state machine, and `from_graphql` |
| `Homepage` | `producthunt.py` | the candidate filter, the score ladder and the choice of a homepage |
| `UrlDiscovery` | `url_discovery.py` | link selection on a SaaSHub page, and the batch loop |
| `SaasHub` | `saashub.py` | class `Client`: the attempt loop, the limit, the 404 mapping and the batch |
| `Collect` | `collect.py` | class `Collector`: the three phase loops and `run`, each proved against a function on a `Snapshot` of the state |

`Wrappers`, `Strings`, `Sequences` and `Urls` hold shared helpers:
- `Option`;
- ASCII lower-casing, substring search, `replace`, `split`, `strip` and `rstrip`;
- distinctness;
- the `urlsplit` of a URL into network location and path.

Python dicts that the program iterates over are a `map` plus a `seq` of keys in insertion
order.

## Model

| member | source | states |
|---|---|---|
| Targets.NormalizeUrl | crawl4ai/market_intel/targets.py:152-175 | the suffix loop returns `NormalizedUrl(url)`: `""` for `""`, otherwise the URL's lowercased, stripped network location with every `www.` removed, then the path without trailing `/` and without `/en`, `/en-us`, `/en-gb`, `/home`, `/index`, each tried in that order |
| Targets.StripLocaleSuffixes | crawl4ai/market_intel/targets.py:171-173 | the loop removes each locale suffix the path still ends with, in the listed order, exactly as `StripSuffixes` does |
| Targets.StripSuffixes | crawl4ai/market_intel/targets.py:171-173 | removing suffixes leaves a prefix of the path |
| Targets.NormalizedUrlParts | crawl4ai/market_intel/targets.py:158-175 | for `scheme://host/path?query#fragment`, the key is the host without `www.` followed by the cleaned path; scheme, query and fragment are dropped |
| Targets.NormalizeIgnoresCase | crawl4ai/market_intel/targets.py:161 | lowercasing a URL first does not change its key |
| Targets.NormalizeIgnoresScheme | crawl4ai/market_intel/targets.py:162-175 | two URLs that differ only in scheme (`http`/`https`) have the same key |
| Targets.NormalizeIgnoresWww | crawl4ai/market_intel/targets.py:165 | a `www.` in front of the host does not change the key |
| Targets.NormalizeIgnoresTrailingSlash | crawl4ai/market_intel/targets.py:168 | a trailing `/` on the path does not change the key, so `https://Foo.com/` and `http://www.foo.com` share a key |
| Targets.StatusFromValue | crawl4ai/market_intel/targets.py:31-36 | exactly "pending", "completed" and "failed" decode, each to the status stored as that string; every other string is rejected |
| Targets.StatusValueRoundTrip | crawl4ai/market_intel/targets.py:31-36 | decoding a status's stored value gives the status back |
| Targets.HomepageKeyOf | crawl4ai/market_intel/targets.py:249-251 | the index key of a homepage is `""` for a missing or empty URL, else its normalized form |
| Targets.ListedAfterAdd | crawl4ai/market_intel/targets.py:260 | appending a new id keeps the order list and the target map in step |
| Targets.IndexedAfterAdd | crawl4ai/market_intel/targets.py:260-265 | indexing a new target's non-empty key keeps every index entry pointing at a stored target with that key |
| Targets.IndexedAfterUpdate | crawl4ai/market_intel/targets.py:305-307 | changing a target's fields but not its homepage keeps the URL index valid |
| Targets.SameHomepagesKeepIndex | crawl4ai/market_intel/targets.py:366-370 | updating many targets without touching ids or homepages keeps the order list and the index valid |
| Targets.CountStatus | crawl4ai/market_intel/targets.py:384-390 | a status count never exceeds the number of targets |
| Targets.CountNoHomepage | crawl4ai/market_intel/targets.py:392-393 | the no-homepage count never exceeds the number of targets |
| Targets.StatusCountsPartition | crawl4ai/market_intel/targets.py:384-390 | pending + completed + failed is the number of targets |
| Targets.CountStatusFrame | crawl4ai/market_intel/targets.py:384-390 | the counts depend only on each target's status |
| Targets.Reset | crawl4ai/market_intel/targets.py:350-351 | a reset target is PENDING with no failure reason |
| Targets.ResetIfFailed | crawl4ai/market_intel/targets.py:367-369 | a FAILED target becomes PENDING with its reason cleared; any other target is unchanged; none is FAILED afterwards |
| Targets.ResetStep | crawl4ai/market_intel/targets.py:366-370 | one loop step resets the current target exactly when it is FAILED and counts it |
| Targets.ResetEachFailed | crawl4ai/market_intel/targets.py:365-375 | the loop resets exactly the FAILED targets and returns how many there were |
| Targets.TargetManager.constructor | crawl4ai/market_intel/targets.py:139-149 | a new manager is empty and valid |
| Targets.TargetManager.UrlKeysDistinct | crawl4ai/market_intel/targets.py:244-265 | no two stored targets share a non-empty normalized homepage |
| Targets.TargetManager.IsUrlKnown | crawl4ai/market_intel/targets.py:225-230 | known iff the URL is non-empty and its key is indexed, and so iff some stored target has that non-empty homepage key |
| Targets.TargetManager.IsIdKnown | crawl4ai/market_intel/targets.py:232-234 | holds exactly for stored ids |
| Targets.TargetManager.GetTarget | crawl4ai/market_intel/targets.py:272-274 | some target with that id iff the id is stored |
| Targets.TargetManager.AddTarget | crawl4ai/market_intel/targets.py:236-270 | added iff the id is new and the non-empty key is not indexed; then the target is stored and appended and its key indexed; otherwise nothing changes; the index invariant is kept |
| Targets.TargetManager.MarkCompleted | crawl4ai/market_intel/targets.py:294-312 | an unknown id changes nothing and gives false; otherwise only that target becomes COMPLETED, with the time and one more attempt |
| Targets.TargetManager.MarkFailed | crawl4ai/market_intel/targets.py:314-337 | an unknown id changes nothing and gives false; otherwise only that target becomes FAILED, with the time, the reason and one more attempt |
| Targets.TargetManager.ResetFailed | crawl4ai/market_intel/targets.py:339-356 | any known target, FAILED or not, becomes PENDING with its reason cleared and its attempts kept; an unknown id changes nothing |
| Targets.TargetManager.ResetAllFailed | crawl4ai/market_intel/targets.py:358-375 | returns the number of FAILED targets beforehand; afterwards each target is `ResetIfFailed` of its old self |
| Targets.TargetManager.GetStats | crawl4ai/market_intel/targets.py:377-401 | returns the total and the per-status and no-homepage counts, with pending + completed + failed == total |
| State.ProductKey | crawl4ai/market_intel/state.py:160 | the key is `saashub_id` when truthy; otherwise it is the name, lowercased, with each space made `-`, so it holds no space or capital |
| State.Refreshed | crawl4ai/market_intel/state.py:162-168 | a stored product only gains a homepage, with the flag set, when a URL is given and it had none; otherwise it is unchanged |
| State.HaltMessage | crawl4ai/market_intel/state.py:240 | the halt reason starts `Rate limit: ` and ends with the error |
| State.ValuesOf | crawl4ai/market_intel/state.py:184-193 | the products of the listed keys, in order |
| State.KeysNeedingHomepage | crawl4ai/market_intel/state.py:184-186 | exactly the keys whose product has no homepage discovered |
| State.KeysNeedingExtraction | crawl4ai/market_intel/state.py:188-193 | exactly the keys whose product has a homepage discovered, a non-empty URL and no extraction |
| State.QueuesDisjoint | crawl4ai/market_intel/state.py:184-193 | no product is in both queues, and together they are no longer than the product list |
| State.FiledAfterPut | crawl4ai/market_intel/state.py:159-181 | storing a product under its own key keeps every product filed under its key |
| State.CollectionState.New | crawl4ai/market_intel/state.py:107-114 | a fresh state: the given run id or the default, both times `now`, no seeds or products, all counters zero, not halted |
| State.CollectionState.MarkSeedProcessed | crawl4ai/market_intel/state.py:145-148 | appends the seed only if absent, so there are never duplicates; the seed counts as processed afterwards; nothing else changes |
| State.CollectionState.AddProduct | crawl4ai/market_intel/state.py:150-182 | a known key is only refreshed (`Refreshed`) and does not count as discovered; a new key is appended with a new product and counts once; `total_discovered == len(products)` is kept |
| State.CollectionState.ProductsNeedingHomepage | crawl4ai/market_intel/state.py:184-186 | every product returned still needs its homepage |
| State.CollectionState.ProductsNeedingExtraction | crawl4ai/market_intel/state.py:188-193 | every product returned still needs extraction |
| State.CollectionState.MarkExtractionSuccess | crawl4ai/market_intel/state.py:195-204 | a known key is marked extracted, with one more attempt and one more extraction, and the failure streak restarts at 0; an unknown key changes nothing |
| State.CollectionState.MarkExtractionFailure | crawl4ai/market_intel/state.py:206-243 | always counts one more failure and records the error, even for an unknown key; the streak grows only on a rate limit; returns true iff a rate limit brings the streak to 3 or more, and then latches the halt with `HaltMessage`; otherwise the halt fields are unchanged |
| State.CollectionState.GetStats | crawl4ai/market_intel/state.py:249-264 | the two pending counts together are at most the number of products; seeds processed and halted are read off the state |
| State.ThreeRateLimitsHalt | crawl4ai/market_intel/state.py:235-241 | from a clean streak, three rate-limit failures in a row halt on the third and not before |
| State.SuccessRestartsStreak | crawl4ai/market_intel/state.py:195-241 | a success on a stored product between rate-limit failures resets the streak: two failures, a success and two more failures do not halt, and leave a streak of 2 |
| RateLimiter.SourceFromValue | crawl4ai/market_intel/rate_limiter.py:26-30 | decoding a source string gives a source with that value, and none when no source has it |
| RateLimiter.SourceValueRoundTrip | crawl4ai/market_intel/rate_limiter.py:26-30 | decoding a source's value gives the source back |
| RateLimiter.MinDelaySeconds | crawl4ai/market_intel/rate_limiter.py:43-46 | the delay times the requests per period is the period |
| RateLimiter.DefaultMinDelays | crawl4ai/market_intel/rate_limiter.py:50-71 | the shipped configurations give 1.8 s, 1.0 s and 12.0 s between requests, each with default ≤ max retry and a multiplier ≥ 1 |
| RateLimiter.Waited | crawl4ai/market_intel/rate_limiter.py:149-175 | after `wait` the last request is at `now` or one minimum delay after the previous one, whichever is later; an elapsed period restarts the count at 1, otherwise the count grows by one; back-off fields untouched |
| RateLimiter.RetryDelay | crawl4ai/market_intel/rate_limiter.py:195-205 | a non-zero `retry_after` is the delay, uncapped; else the default on a clean streak; else the previous delay grown by the multiplier and capped |
| RateLimiter.GrownWithinCap | crawl4ai/market_intel/rate_limiter.py:203-205 | growing a delay within the cap never shrinks it and never passes the cap |
| RateLimiter.FirstPauseIsDefault | crawl4ai/market_intel/rate_limiter.py:195-209 | the first pause without `retry_after` waits the default and counts one failure |
| RateLimiter.NextPauseFollowsSchedule | crawl4ai/market_intel/rate_limiter.py:202-209 | each further pause follows the back-off schedule one step on |
| RateLimiter.ResetRestartsSchedule | crawl4ai/market_intel/rate_limiter.py:195-209 | after `reset_failures` the next pause waits the default again |
| RateLimiter.BackoffBounded | crawl4ai/market_intel/rate_limiter.py:198-205 | with default ≤ max and multiplier ≥ 1, successive delays never decrease and never pass the max |
| RateLimiter.BackoffCapped | crawl4ai/market_intel/rate_limiter.py:203-205 | every grown delay is at most the max |
| RateLimiter.IsRateLimitError | crawl4ai/market_intel/rate_limiter.py:300-323 | true iff the lowercased message contains `429`, `rate limit` or `too many requests`; or, for OpenAI only, `rate_limit_exceeded` or `quota`; or, for Product Hunt only, `throttle` |
| RateLimiter.RateLimitErrorIgnoresCase | crawl4ai/market_intel/rate_limiter.py:302 | the test ignores case |
| RateLimiter.CommonIndicators | crawl4ai/market_intel/rate_limiter.py:305-309 | what counts for SaaSHub counts for every source |
| RateLimiter.QuotaIsOpenAiOnly | crawl4ai/market_intel/rate_limiter.py:312-316 | `Quota` is a rate limit for OpenAI and not for SaaSHub |
| RateLimiter.ThrottledIsProductHuntOnly | crawl4ai/market_intel/rate_limiter.py:319-321 | `throttled` is a rate limit for Product Hunt and not for OpenAI |
| RateLimiter.Restored | crawl4ai/market_intel/rate_limiter.py:364-371 | a loaded state belongs to its source, and an entry with no fields gives the fresh state (every field defaulted) |
| RateLimiter.StateDict | crawl4ai/market_intel/rate_limiter.py:344-357 | one entry per source, under its string value, holding every field |
| RateLimiter.Loaded | crawl4ai/market_intel/rate_limiter.py:359-374 | every known source in the dict is replaced by its restored state; the others are kept, and unknown strings are skipped |
| RateLimiter.LoadSavedRestores | crawl4ai/market_intel/rate_limiter.py:344-374 | loading what `get_state_dict` saved gives back every state exactly |
| RateLimiter.RetryEnds | crawl4ai/market_intel/rate_limiter.py:254-298 | the loop makes between 1 and `max_retries + 1` calls; every call but the last failed with a rate-limit error; the last one returned, failed otherwise, or used up the retries; a returned value leaves no failure counted |
| RateLimiter.Limiter.constructor | crawl4ai/market_intel/rate_limiter.py:117-135 | the given configurations, or the defaults when none or empty, with a fresh state for each |
| RateLimiter.Limiter.Wait | crawl4ai/market_intel/rate_limiter.py:149-175 | for a configured source, sleeps `max(0, min_delay - elapsed)` and stores `Waited`; an unconfigured source changes nothing |
| RateLimiter.Limiter.HandleRateLimit | crawl4ai/market_intel/rate_limiter.py:177-232 | returns `RetryDelay`; for that source only, it counts one more failure, stores the delay and the pause times, and restarts the request period when the pause is over |
| RateLimiter.Limiter.ExecuteWithRetry | crawl4ai/market_intel/rate_limiter.py:234-298 | the result, the number of calls and the new state are those of `Retry`; an unconfigured source gets a fresh state and no call |
| RateLimiter.Limiter.RetryLoop | crawl4ai/market_intel/rate_limiter.py:254-296 | the attempt loop computes `Retry` from the first attempt |
| RateLimiter.Limiter.GetStateDict | crawl4ai/market_intel/rate_limiter.py:344-357 | one entry for each tracked source |
| RateLimiter.Limiter.LoadStateDict | crawl4ai/market_intel/rate_limiter.py:359-374 | the states become `Loaded(old states, d)` and the configurations are unchanged |
| RateLimiter.LoadOne | crawl4ai/market_intel/rate_limiter.py:361-374 | one entry of the load loop restores a known source and skips an unknown string |
| ProductHunt.TopicNames | crawl4ai/market_intel/producthunt.py:120-125 | the topic names of the edges, in order |
| ProductHunt.FromGraphql | crawl4ai/market_intel/producthunt.py:118-155 | id, name and URLs are copied; the homepage comes from `website`; votes and reviews default to 0; topics are the edge names in order |
| ProductHunt.FromGraphqlOfToNode | crawl4ai/market_intel/producthunt.py:118-155 | every product is `from_graphql` of the node it describes |
| ProductHunt.Eligible | crawl4ai/market_intel/producthunt.py:358-364 | the filter keeps at most as many products as there are nodes |
| ProductHunt.EligibleVotes | crawl4ai/market_intel/producthunt.py:362 | every kept product has at least the minimum votes |
| ProductHunt.EligibleConcat | crawl4ai/market_intel/producthunt.py:358-364 | filtering distributes over concatenation |
| ProductHunt.Take | crawl4ai/market_intel/producthunt.py:364-367 | stopping at a budget keeps `min(n, len)` items, none for `n ≤ 0` |
| ProductHunt.EffectiveMinVotes | crawl4ai/market_intel/producthunt.py:333 | the given minimum, else the client's |
| ProductHunt.TakeEligible | crawl4ai/market_intel/producthunt.py:358-367 | the edge loop yields the first `room` eligible products of the page |
| ProductHunt.QueryPage | crawl4ai/market_intel/producthunt.py:337-373 | one turn of the loop makes one request and is the `Answer` step of the fetch machine |
| ProductHunt.FetchPosts | crawl4ai/market_intel/producthunt.py:333-373 | the loop's products, requests and error are those of `Outcome` |
| ProductHunt.AnswerOpen | crawl4ai/market_intel/producthunt.py:337-373 | one step requests the next page and appends its eligible products within the budget; it stops on a failed query, a last page or a full budget, and otherwise moves the cursor |
| ProductHunt.OutcomeIsOver | crawl4ai/market_intel/producthunt.py:337 | the loop always ends |
| ProductHunt.OutcomeYields | crawl4ai/market_intel/producthunt.py:337-367 | at most `limit` products are yielded, all with at least the minimum votes, and they are the eligible ones of the pages requested |
| ProductHunt.OutcomeRequests | crawl4ai/market_intel/producthunt.py:337-346 | request j asks for `min(50, limit - fetched)`, that is between 1 and 50, after the previous cursor; there are no requests iff `limit ≤ 0` |
| ProductHunt.OutcomeStops | crawl4ai/market_intel/producthunt.py:355-373 | every request but the last was followed by a non-empty page with a next page; the last one ended on an empty page, no next page or a full budget; an error is returned iff the last query failed |
| ProductHunt.PopularListing | crawl4ai/market_intel/producthunt.py:333-348 | popular products are ordered by votes, with no topic, and may be filtered by posting date |
| ProductHunt.TrendingListing | crawl4ai/market_intel/producthunt.py:392-403 | trending products are ordered by ranking, with no topic or date |
| ProductHunt.TopicListing | crawl4ai/market_intel/producthunt.py:445-457 | topic products are ordered by votes, within the topic |
| ProductHunt.GetPopularProducts | crawl4ai/market_intel/producthunt.py:316-373 | yields the `Outcome` of the popular listing |
| ProductHunt.GetTrendingProducts | crawl4ai/market_intel/producthunt.py:375-426 | yields the `Outcome` of the trending listing |
| ProductHunt.GetProductsByTopic | crawl4ai/market_intel/producthunt.py:428-480 | yields the `Outcome` of the topic listing |
| Homepage.KeysOfShape | crawl4ai/market_intel/producthunt.py:600-605 | the name key is lowercased without spaces and hyphens, and the slug key lowercased without hyphens; the digit-free keys additionally hold no digit |
| Homepage.DropDigitsKeepsClean | crawl4ai/market_intel/producthunt.py:604-605 | dropping digits keeps a key clean and removes every digit |
| Homepage.ScoreLadder | crawl4ai/market_intel/producthunt.py:627-646 | the score is one of 1000, 900, 500, 400, 200, 150, 1; it is at least 100 iff a name or slug rule matches, and 1000 iff the host base equals the slug or name |
| Homepage.CandidateOf | crawl4ai/market_intel/producthunt.py:608-648 | a URL is dropped iff its host holds a skip-domain or its path an asset extension; otherwise the candidate is `https://` plus the host without `www.`, scored on the part before the first dot |
| Homepage.CandidateOfLink | crawl4ai/market_intel/producthunt.py:610-648 | for a spelled-out link, the candidate is scored on the host without `www.`, and the path is discarded |
| Homepage.Candidates | crawl4ai/market_intel/producthunt.py:607-650 | there are no more candidates than URLs |
| Homepage.CandidatesFrom | crawl4ai/market_intel/producthunt.py:607-650 | every candidate comes from some scraped URL |
| Homepage.CollectCandidates | crawl4ai/market_intel/producthunt.py:607-650 | the loop builds `Candidates` |
| Homepage.CandLeTotal | crawl4ai/market_intel/producthunt.py:657 | the `(score, url)` order is total |
| Homepage.CandLeTransitive | crawl4ai/market_intel/producthunt.py:657 | the `(score, url)` order is transitive |
| Homepage.InsertSorted | crawl4ai/market_intel/producthunt.py:657 | inserting keeps the list sorted in descending order and adds exactly the new candidate |
| Homepage.SortDescSorted | crawl4ai/market_intel/producthunt.py:657 | the list ends up sorted by `(score, url)`, descending, as a permutation of the candidates |
| Homepage.PickConfident | crawl4ai/market_intel/producthunt.py:658-671 | the scan with a `seen` set returns the first URL scoring at least 100 |
| Homepage.NoneConfident | crawl4ai/market_intel/producthunt.py:659-671 | with no score of 100 or more the scan returns nothing |
| Homepage.SelectHomepageBest | crawl4ai/market_intel/producthunt.py:652-671 | nothing is chosen iff every candidate scores below 100; otherwise the choice is a maximal `(score, url)` candidate scoring at least 100 |
| Homepage.ResolveHomepageUrl | crawl4ai/market_intel/producthunt.py:548-675 | the method computes `Resolved` |
| Homepage.ResolvedBest | crawl4ai/market_intel/producthunt.py:548-675 | no Product Hunt URL or a failed crawl gives nothing; a result is the cleaned host of a scraped URL that scores at least 100 and is maximal among all candidates |
| UrlDiscovery.Clean | crawl4ai/market_intel/url_discovery.py:77 | the cleaned URL is a prefix of the URL, holds neither `?ref=` nor `?utm_`, and equals a URL that held neither |
| UrlDiscovery.CleanNoOp | crawl4ai/market_intel/url_discovery.py:77 | cutting a URL that holds neither marker changes nothing |
| UrlDiscovery.CleanKeepsScheme | crawl4ai/market_intel/url_discovery.py:66-77 | a cleaned `http` URL still starts with `http` |
| UrlDiscovery.FirstCapture | crawl4ai/market_intel/url_discovery.py:72-78 | the first pattern that matches; every earlier one did not |
| UrlDiscovery.FirstKept | crawl4ai/market_intel/url_discovery.py:82-91 | the first external link that is not SaaSHub's own or a social network's; every earlier one was skipped |
| UrlDiscovery.Captures | crawl4ai/market_intel/url_discovery.py:65-74 | the search result of each of the four patterns, in order |
| UrlDiscovery.PageHomepageMeaning | crawl4ai/market_intel/url_discovery.py:56-93 | a failed crawl gives nothing; the first matching pattern wins, cleaned; only when none matches is the first kept external link returned, as is; with no links the result is nothing; an uncleaned `?ref=` URL can only come from the links |
| UrlDiscovery.Absolute | crawl4ai/market_intel/url_discovery.py:176-177 | a URL starting with `http` is kept; any other gets the `https://www.saashub.com` prefix |
| UrlDiscovery.ExtractHomepage | crawl4ai/market_intel/url_discovery.py:27-97 | the pattern and link loops compute `Lookup` |
| UrlDiscovery.DiscoverHomepageSingle | crawl4ai/market_intel/url_discovery.py:157-179 | the result is `SingleLookup`: nothing for an empty URL, else the lookup of the absolute URL |
| UrlDiscovery.ListingHomepageMeaning | crawl4ai/market_intel/url_discovery.py:128-143 | a batch entry without a URL or whose crawl raises gets nothing; otherwise it gets the selected link of the page, as `discover_homepage_single` would |
| UrlDiscovery.HomepagesLastWins | crawl4ai/market_intel/url_discovery.py:139-145 | results are keyed by name, and the last listing with a name decides its entry |
| UrlDiscovery.HomepagesKeys | crawl4ai/market_intel/url_discovery.py:139-145 | exactly the names of the listings seen have entries |
| UrlDiscovery.Reports | crawl4ai/market_intel/url_discovery.py:147-148 | one progress report per listing |
| UrlDiscovery.ReportsAt | crawl4ai/market_intel/url_discovery.py:147-148 | report k carries the name, the global index k, the total and the homepage of listing k |
| UrlDiscovery.DiscoverListing | crawl4ai/market_intel/url_discovery.py:128-143 | one listing's name and homepage |
| UrlDiscovery.DiscoverBatch | crawl4ai/market_intel/url_discovery.py:123-148 | a slice of listings extends the results and reports exactly as far as its end |
| UrlDiscovery.DiscoverHomepageUrls | crawl4ai/market_intel/url_discovery.py:100-154 | consecutive slices of `batch_size` cover every listing once, in order; the results and reports are those of all listings; the pauses number one fewer than the slices; a zero batch size fails, and a negative one does nothing |
| UrlDiscovery.SlicesBounds | crawl4ai/market_intel/url_discovery.py:122 | the slices cover the listings: all but the last are full and none is empty |
| UrlDiscovery.PauseCount | crawl4ai/market_intel/url_discovery.py:151-152 | a pause follows every slice but the last |
| SaasHub.AttemptsEnd | crawl4ai/market_intel/saashub.py:136-181 | at most `MAX_RETRIES` (3) attempts; each before the last had a retryable reply; the last settles the outcome; one pause follows each retried attempt |
| SaasHub.AttemptsIgnoreClock | crawl4ai/market_intel/saashub.py:136-181 | the outcome, the calls and the pauses do not depend on the clock |
| SaasHub.SettledMeaning | crawl4ai/market_intel/saashub.py:145-181 | a rate-limit error means a 429 on the last attempt, carrying `Retry-After` or 4; a client error means status 400, 401, 403 or 404; success means a 2xx body; an exhausted error carries the last error after 3 attempts |
| SaasHub.ClientErrorNotRetried | crawl4ai/market_intel/saashub.py:161-167 | a 400, 401, 403 or 404 reply ends the loop after one call with that status and text |
| SaasHub.LimitAlternatives | crawl4ai/market_intel/saashub.py:223-226 | a positive limit keeps the first `min(limit, n)` alternatives in order; no limit or a limit ≤ 0 keeps them all |
| SaasHub.ProductOfAsWritten | crawl4ai/market_intel/saashub.py:261-274 | `get_product` as written: a product exactly when the reply holds one; an error it re-raises is the request's own error |
| SaasHub.AsWrittenDiffers | crawl4ai/market_intel/saashub.py:270-274 | the as-written and intended mappings differ exactly on an error that is not a 404 reply but whose text contains `404`, which as written is "not found" and as intended is re-raised |
| SaasHub.ProductOf | crawl4ai/market_intel/saashub.py:247-250 | the mapping the docstring promises: exactly the errors that are not a 404 reply are re-raised |
| SaasHub.NotFoundMeans | crawl4ai/market_intel/saashub.py:261-276 | "not found" means exactly a reply with no product or a 404 reply; every other error is passed on |
| SaasHub.NotFoundAgreesOn404 | crawl4ai/market_intel/saashub.py:270-273 | a 404 reply is "not found", both as written and as intended |
| SaasHub.AsWrittenMasksForbidden | crawl4ai/market_intel/saashub.py:270-274 | as written, a 403 whose text mentions `404` is taken for "not found" |
| SaasHub.BatchCovers | crawl4ai/market_intel/saashub.py:295-309 | every query has an entry, and a repeated query keeps its last answer; a failing query maps to `[]` |
| SaasHub.BatchKeys | crawl4ai/market_intel/saashub.py:295-309 | the entries are exactly the queries |
| SaasHub.ApiKeyOf | crawl4ai/market_intel/saashub.py:78-83 | the given key when truthy, else the environment's when truthy, else none; a key is never empty |
| SaasHub.Client.constructor | crawl4ai/market_intel/saashub.py:59-89 | a client has the key and the delay, and no request yet |
| SaasHub.Client.WaitForRateLimit | crawl4ai/market_intel/saashub.py:103-108 | the client sleeps only after an earlier request, and then until `request_delay` has passed since it |
| SaasHub.Client.MakeRequest | crawl4ai/market_intel/saashub.py:110-181 | the loop's outcome, calls, pauses and last request time are those of `Attempts` |
| SaasHub.Client.GetAlternatives | crawl4ai/market_intel/saashub.py:183-229 | the alternatives of the reply, cut to the limit, or the request's error |
| SaasHub.Client.GetProduct | crawl4ai/market_intel/saashub.py:231-276 | the product, "not found", or the error, as `ProductOfAsWritten` decides, so any error whose text contains `404` is "not found"; the last request time is the request's |
| SaasHub.Client.GetAlternativesBatch | crawl4ai/market_intel/saashub.py:278-309 | the dict is `BatchResults` of the queries, and the last request time is `BatchLast`, the one the lookups leave one after another |
| Collect.AltUrl | crawl4ai/market_intel/collect.py:191-194 | an empty `saashubUrl` stays empty; any other becomes absolute and starts with `http`; one already starting with `http` is kept as is |
| Collect.Answers | crawl4ai/market_intel/collect.py:186 | the alternatives result of each seed's exchanges, cut to `max_products_per_seed` |
| Collect.HomepageQueue | crawl4ai/market_intel/collect.py:229 | exactly the products that still need a homepage |
| Collect.ExtractionQueue | crawl4ai/market_intel/collect.py:281 | exactly the products that still need extraction, in key order |
| Collect.DiscoveryPhase | crawl4ai/market_intel/collect.py:166-220 | without a SaaSHub key the phase changes nothing and fails; otherwise the key list invariant and the filing of products under their keys are kept |
| Collect.HomepagePhase | crawl4ai/market_intel/collect.py:222-269 | the phase always completes, never changes the halt flag, and keeps the invariants |
| Collect.ExtractionPhase | crawl4ai/market_intel/collect.py:278-420 | without an OpenAI key the phase changes nothing and fails; otherwise it keeps the invariants |
| Collect.Collector.constructor | crawl4ai/market_intel/collect.py:65-108 | each key is the given one when truthy, else the environment's |
| Collect.Collector.AddAlternatives | crawl4ai/market_intel/collect.py:188-202 | the rows are filed one by one, as `RowsAdded` |
| Collect.Collector.AddAlternative | crawl4ai/market_intel/collect.py:189-201 | one row is filed with name defaulting to "Unknown" and an absolute SaaSHub URL |
| Collect.Collector.DiscoverProducts | crawl4ai/market_intel/collect.py:156-220 | without a key nothing changes and the phase fails; otherwise the state and the count are `DiscoveryAfter` over all seeds |
| Collect.Collector.DiscoverSeed | crawl4ai/market_intel/collect.py:178-218 | one seed moves the state as `SeedStep`: skip if processed; file the rows, count them and mark the seed; stop and latch the halt on a rate limit; skip on any other error |
| Collect.Collector.DiscoverHomepage | crawl4ai/market_intel/collect.py:246-266 | a found homepage sets the URL and the flag of that product only; otherwise nothing changes |
| Collect.Collector.DiscoverHomepages | crawl4ai/market_intel/collect.py:222-269 | a halted state is left alone; otherwise the products and count are `HomepagesAfter` over the homepage queue |
| Collect.Collector.ExtractProduct | crawl4ai/market_intel/collect.py:309-417 | one product moves the state as `ExtractionStep`, under the `add_product` key; success iff the result parsed; the halt flag is returned |
| Collect.Collector.ExtractProductInfo | crawl4ai/market_intel/collect.py:271-420 | without an OpenAI key nothing changes and the phase fails; otherwise state and count are `ExtractionAfter` over the extraction queue |
| Collect.Collector.ExtractAll | crawl4ai/market_intel/collect.py:303-417 | the product loop, which breaks on a halt, computes `ExtractionAfter` |
| Collect.Collector.Run | crawl4ai/market_intel/collect.py:422-479 | the final state and result are `RunAfter` of the initial state |
| Collect.StatsAgree | crawl4ai/market_intel/state.py:249-264 | the statistics are those of the state's snapshot |
| Collect.StoppedStays | crawl4ai/market_intel/collect.py:209-214 | once a rate limit stops the seed loop, later seeds change nothing |
| Collect.ProductStep | crawl4ai/market_intel/state.py:150-182 | filing a row only appends keys, counts at most one discovery, keeps stored products and leaves seeds, halt and failure counters alone |
| Collect.RowsAppendKeys | crawl4ai/market_intel/collect.py:188-202 | filing rows only appends keys, and discovers at most one product per row |
| Collect.RowsFiled | crawl4ai/market_intel/collect.py:188-202 | after its rows, every alternative of a seed is stored under its key |
| Collect.RowsKeepProducts | crawl4ai/market_intel/collect.py:188-202 | filing rows keeps every stored product |
| Collect.RowsKeepFiling | crawl4ai/market_intel/collect.py:188-202 | filing rows keeps the key list invariant and the filing of products under their keys |
| Collect.SeedStepFacts | crawl4ai/market_intel/collect.py:178-218 | a seed is marked only when reached and answered, after all its rows are stored; the loop stops and latches the halt with the SaaSHub reason exactly on a rate limit |
| Collect.DiscoveryKeepsProducts | crawl4ai/market_intel/collect.py:178-218 | discovery never drops a stored product |
| Collect.DiscoverySeeds | crawl4ai/market_intel/collect.py:178-205 | processed seeds are only appended to; each new one is a seed whose alternatives are all stored |
| Collect.DiscoveryMarksReached | crawl4ai/market_intel/collect.py:186-204 | every seed reached before a stop whose answer came back is marked processed |
| Collect.SeedStepMarks | crawl4ai/market_intel/collect.py:204 | a seed step never unmarks a seed and marks an answered reached seed |
| Collect.DiscoveryHalts | crawl4ai/market_intel/collect.py:209-214 | the run halts iff it was halted or the loop stopped; a stop comes from a rate-limited seed and sets the reason "SaaSHub rate limit: Rate limit exceeded after 3 attempts."; otherwise the reason is unchanged and every rate-limited seed was skipped as processed |
| Collect.DiscoveryCounts | crawl4ai/market_intel/collect.py:196-202 | the count covers every row, including rows that hit a stored key, so the growth of `total_discovered` is at most the count; the extraction counters are untouched |
| Collect.HomepageKeptAt | crawl4ai/market_intel/collect.py:239-256 | each product keeps its identity and either stays as it was or gets its found homepage |
| Collect.HomepagesSameKeys | crawl4ai/market_intel/collect.py:239-256 | the homepage loop adds and drops no product |
| Collect.HomepageFoundAt | crawl4ai/market_intel/collect.py:253-256 | a queued product whose homepage is found gets its URL and flag |
| Collect.HomepagesOnlyFill | crawl4ai/market_intel/collect.py:239-256 | the loop only fills in found homepages |
| Collect.HomepagesCount | crawl4ai/market_intel/collect.py:253-256 | the count is the number of products found, at most the queue length |
| Collect.HomepagesFound | crawl4ai/market_intel/collect.py:229-256 | every queued product whose homepage is found ends with that URL and no longer needs a homepage |
| Collect.HaltedStays | crawl4ai/market_intel/collect.py:305-307 | once halted, later products change nothing |
| Collect.StepKeepsFiling | crawl4ai/market_intel/collect.py:309-417 | one extraction keeps keys, products, seeds and discoveries and never clears the halt |
| Collect.ExtractionKeepsFiling | crawl4ai/market_intel/collect.py:304-417 | the extraction loop keeps the keys, the invariants, the seeds and the discovery count |
| Collect.ExtractionSameProducts | crawl4ai/market_intel/collect.py:304-417 | the extraction loop adds and drops no product |
| Collect.ExtractionCounts | crawl4ai/market_intel/collect.py:304-417 | `total_extracted` grows by the count; successes plus failures are at most the products visited, and exactly that when the loop did not halt |
| Collect.StepCounts | crawl4ai/market_intel/collect.py:323-412 | a success counts one extraction, and any failure one failure |
| Collect.ExtractionHalts | crawl4ai/market_intel/collect.py:304-417 | a halted state is left alone; a new halt means 3 or more rate-limit failures in a row, a recorded last error, the `Rate limit:` reason and some rate-limited product; otherwise the reason is unchanged |
| Collect.QueueFiled | crawl4ai/market_intel/collect.py:309 | the key computed in the loop is the key the product is stored under |
| Collect.ExtractionPhaseCounts | crawl4ai/market_intel/collect.py:271-420 | with a key the phase completes; its count is the extractions added; successes plus failures cover the queue unless it halted |
| Collect.VerdictClassification | crawl4ai/market_intel/collect.py:323-412 | only parsed content succeeds; only an error envelope or an exception can be a rate limit; an envelope is one iff its lowercased text contains "rate limit"; an exception iff it contains "rate limit" (any case) or "429"; a crawl failure has a message |
| Collect.RateLimitVerdictAgrees | crawl4ai/market_intel/collect.py:339-407 | whatever the collector counts as a rate limit, the rate limiter does too, for every source |
| Collect.QuotaIsNotRecordedAsRateLimit | crawl4ai/market_intel/collect.py:384-392 | a "Quota" error is a rate limit for OpenAI in the rate limiter, but the collector records it as an ordinary failure |
| Collect.HaltedRunDoesNothing | crawl4ai/market_intel/collect.py:443-446 | a run on a halted state does no phase and returns the statistics |
| Collect.SkippingAllChangesNothing | crawl4ai/market_intel/collect.py:448-479 | skipping every phase leaves the state as it is and counts nothing |
| Collect.DiscoveryHaltEndsRun | crawl4ai/market_intel/collect.py:455-460 | a rate limit in discovery ends the run after phase 1, with phase 1's count only |
| Collect.RunKeepsFiling | crawl4ai/market_intel/collect.py:422-479 | a run keeps the key list invariant and the filing of products under their keys |

## Left out

- File persistence is not modelled:
  - `TargetManager._load`, `_save` and `_save_single`;
  - `CollectionState.load` and `save`;
  - `load_seeds`, `load_state` and `save_state`, including the periodic saves every 5 or 10 products;
  - `write_product`.
  The seeds are a parameter of `Run`, and `run` starts from the state it is given.
- `Target.to_dict`/`from_dict`, `ProductState`'s dict form, `Target.from_producthunt`, `ProductHuntProduct.to_dict` and the get_pending/get_completed/get_failed iterators: these are field copying or generators outside the bookkeeping.
- Network, browser and language-model calls are inputs:
  - httpx and GraphQL requests;
  - header parsing, `response.json()` and `_extract_retry_after`;
  - `AsyncWebCrawler.arun` and the LLM extraction strategy.
  They appear as answer sequences, functions or the `Attempt` datatype.
- The regular expressions (the Product Hunt URL scrape and the four SaaSHub patterns) are oracle functions. `urlsplit` is modelled for `scheme://netloc/path` URLs; `;` parameters and the IPv6 bracket error are not.
- Timestamps are a `now` parameter. Sleeps advance the local clock by their length or are counted as pauses. `paused_at`/`resume_at` are clock readings, not ISO strings.
- Concurrency is not modelled: `asyncio.gather` and the semaphore of `resolve_homepage_urls_batch`, the concurrent batches of `discover_homepage_urls` (modelled one listing at a time, in order), and the `on_pause`, `on_rate_limit` and `on_progress` callbacks (progress is a returned list of reports).
- `asyncio.coroutine(lambda: None)` for a listing without a URL is taken to give no homepage.
- Logging, `_log` and the CLIs (`main` in collect.py and saashub.py) are omitted for lack of logic; `schemas.py` and `__init__.py` hold only declarations.
- Lower-casing and `isdigit` cover ASCII only.
- A zero `requests_per_period` (a division by zero) is excluded by the limiter's invariant. The text of the `ValueError` for an unconfigured source is not modelled; the result is `Unconfigured`.
- SaasHub.Client.MakeRequest: a reply is always well formed. Three failures that escape `_make_request` are not modelled: a `Retry-After` that is not an integer (`int(...)` raises `ValueError`), a negative one (`time.sleep` raises), and a 2xx body that is not JSON (`response.json()` raises). Nothing catches them up to `run`, which would abort.
- Collect.Collector.Run: the SaaSHub answers for each seed must hold at least `MAX_RETRIES` exchanges, because the attempt loop reads that many at most.
- Collect.RunAfter: `run` checks for a halt after phase 2, but phase 2 never sets the latch, so that check cannot fire and the model has no such branch (`Collect.HomepagePhase` proves the halt flag is unchanged).
- Collect.VerdictOf: a non-string `content` in an error envelope (`str(error_msg)`) is taken to be a string.
- State.CollectionState.GetStats: its own contract states only the bounds and the fields read directly; `Collect.StatsAgree` ties every field to the snapshot's queues.
- RateLimiter.Limiter.GetStateDict: its own contract states only the keys; `RateLimiter.StateDict` and `RateLimiter.LoadSavedRestores` state the values.
- State.CollectionState.ProductsNeedingHomepage and State.CollectionState.ProductsNeedingExtraction: their own contracts state only that each result needs the work; `State.KeysNeedingHomepage`, `State.KeysNeedingExtraction`, `Collect.HomepageQueue` and `Collect.ExtractionQueue` state that no product is missing.
- ProductHunt listings: the generator's laziness is not modelled. The products a caller would consume are returned together.

## Findings

| source | as written | input that shows it | evidently intended | confidence | as-written member | corrected member |
|---|---|---|---|---|---|---|
| crawl4ai/market_intel/saashub.py:270-274 | `get_product` returns None for any `SaaSHubAPIError` whose text contains "404" | a 403 reply whose body mentions `404` (an error page, say), giving the message "API request failed: 403 - … 404 …" | only a 404 reply means "not found"; other errors are re-raised | medium, not executed | SaasHub.AsWrittenMasksForbidden | SaasHub.NotFoundMeans |

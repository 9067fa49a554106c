/**
 * The state of a resumable collection run: the seed queries already processed, the
 * products discovered (keyed by SaaSHub id or by a slug of the name), their homepage
 * and extraction progress, and the counters behind the halt-on-rate-limit latch.
 * Saving to and loading from the JSON state file are not part of this model.
 */
module State {
  import opened Wrappers
  import opened Strings
  import opened Sequences

  /** One product of the pipeline (`ProductState`); timestamps are strings the caller supplies. */
  datatype ProductState = ProductState(
    name: string,
    homepageUrl: Option<string>,
    saashubUrl: Option<string>,
    saashubId: Option<string>,
    seedQuery: string,
    discoveredAt: Option<string>,
    homepageDiscovered: bool,
    extracted: bool,
    extractedAt: Option<string>,
    extractionError: Option<string>,
    extractionAttempts: int,
    lastAttemptAt: Option<string>)

  /** The consecutive rate-limit failures that halt the run. */
  const HaltThreshold: int := 3

  /**
   * The key a product is filed under: its SaaSHub id when that is present and non-empty,
   * otherwise its name lower-cased with every space turned into '-'.
   */
  function ProductKey(saashubId: Option<string>, name: string): (key: string)
    ensures Truthy(saashubId) ==> key == saashubId.value
    ensures !Truthy(saashubId) ==> |key| == |name|
    ensures !Truthy(saashubId) ==>
              forall i :: 0 <= i < |name| ==> key[i] == (if name[i] == ' ' then '-' else LowerChar(name[i]))
    ensures !Truthy(saashubId) ==> ' ' !in key && forall c :: c in key ==> !('A' <= c <= 'Z')
  {
    if Truthy(saashubId) then saashubId.value
    else
      var key := ReplaceChar(Lower(name), ' ', '-');
      LowerHasNoUpper(name);
      assert forall c :: c in key ==> !('A' <= c <= 'Z') by {
        forall c | c in key
          ensures !('A' <= c <= 'Z')
        {
          var i :| 0 <= i < |key| && key[i] == c;
          assert Lower(name)[i] in Lower(name);
        }
      }
      key
  }

  /** A product as `add_product` first records it. */
  function NewProduct(name: string, seedQuery: string, saashubUrl: Option<string>, saashubId: Option<string>,
                      homepageUrl: Option<string>, now: string): ProductState
  {
    ProductState(name, homepageUrl, saashubUrl, saashubId, seedQuery, Some(now), homepageUrl.Some?,
                 false, None, None, 0, None)
  }

  /** A known product seen again: it takes the new homepage only when it has none yet. */
  function Refreshed(p: ProductState, homepageUrl: Option<string>): (r: ProductState)
    ensures Truthy(homepageUrl) && !Truthy(p.homepageUrl) ==>
              r == p.(homepageUrl := homepageUrl, homepageDiscovered := true)
    ensures !(Truthy(homepageUrl) && !Truthy(p.homepageUrl)) ==> r == p
  {
    if Truthy(homepageUrl) && !Truthy(p.homepageUrl) then p.(homepageUrl := homepageUrl, homepageDiscovered := true)
    else p
  }

  /** The text `mark_extraction_failure` halts with. */
  function HaltMessage(failures: nat, error: string): (msg: string)
    ensures StartsWith(msg, "Rate limit: ") && EndsWith(msg, error)
  {
    var msg := "Rate limit: " + NatToString(failures) + " consecutive failures. Last error: " + error;
    assert msg[|msg| - |error|..] == error;
    msg
  }

  // ---------------------------------------------------------------------------
  // The two work queues

  predicate NeedsHomepage(p: ProductState) {
    !p.homepageDiscovered
  }

  predicate NeedsExtraction(p: ProductState) {
    p.homepageDiscovered && Truthy(p.homepageUrl) && !p.extracted
  }

  /** Every key names a stored product. */
  predicate AllStored(keys: seq<string>, products: map<string, ProductState>) {
    forall k :: k in keys ==> k in products
  }

  /** The products under `keys`, in that order. */
  function ValuesOf(keys: seq<string>, products: map<string, ProductState>): (r: seq<ProductState>)
    requires AllStored(keys, products)
    ensures |r| == |keys|
    ensures forall i :: 0 <= i < |keys| ==> r[i] == products[keys[i]]
  {
    if keys == [] then [] else ValuesOf(keys[..|keys| - 1], products) + [products[keys[|keys| - 1]]]
  }

  /** The keys, in order, whose products still need a homepage. */
  function KeysNeedingHomepage(keys: seq<string>, products: map<string, ProductState>): (r: seq<string>)
    requires AllStored(keys, products)
    ensures |r| <= |keys|
    ensures forall k :: k in r ==> k in keys && NeedsHomepage(products[k])
    ensures forall k :: k in keys && NeedsHomepage(products[k]) ==> k in r
  {
    if keys == [] then []
    else
      var init := keys[..|keys| - 1];
      var last := keys[|keys| - 1];
      assert forall k :: k in keys <==> k in init || k == last by {
        assert keys == init + [last];
      }
      KeysNeedingHomepage(init, products) + (if NeedsHomepage(products[last]) then [last] else [])
  }

  /** The keys, in order, whose products have a homepage but no extraction yet. */
  function KeysNeedingExtraction(keys: seq<string>, products: map<string, ProductState>): (r: seq<string>)
    requires AllStored(keys, products)
    ensures |r| <= |keys|
    ensures forall k :: k in r ==> k in keys && NeedsExtraction(products[k])
    ensures forall k :: k in keys && NeedsExtraction(products[k]) ==> k in r
  {
    if keys == [] then []
    else
      var init := keys[..|keys| - 1];
      var last := keys[|keys| - 1];
      assert forall k :: k in keys <==> k in init || k == last by {
        assert keys == init + [last];
      }
      KeysNeedingExtraction(init, products) + (if NeedsExtraction(products[last]) then [last] else [])
  }

  /**
   * No product is in both queues, so together they are never longer than the product
   * list: a product waiting for its homepage is not yet ready for extraction.
   */
  lemma {:induction false} QueuesDisjoint(keys: seq<string>, products: map<string, ProductState>)
    requires AllStored(keys, products)
    ensures forall k :: k in KeysNeedingHomepage(keys, products) ==> k !in KeysNeedingExtraction(keys, products)
    ensures |KeysNeedingHomepage(keys, products)| + |KeysNeedingExtraction(keys, products)| <= |keys|
  {
    if keys != [] {
      QueuesDisjoint(keys[..|keys| - 1], products);
    }
  }

  /** Every product is filed under the key `add_product` computes from its id and name. */
  ghost predicate Filed(products: map<string, ProductState>) {
    forall k :: k in products ==> ProductKey(products[k].saashubId, products[k].name) == k
  }

  /** Filing a product under its own key keeps every product under its own key. */
  lemma FiledAfterPut(products: map<string, ProductState>, key: string, p: ProductState)
    requires Filed(products)
    requires ProductKey(p.saashubId, p.name) == key
    ensures Filed(products[key := p])
  {
  }

  /** What `get_stats` reports. */
  datatype Stats = Stats(
    runId: string,
    startedAt: string,
    updatedAt: string,
    seedsProcessed: int,
    totalDiscovered: int,
    totalExtracted: int,
    totalFailed: int,
    pendingHomepage: int,
    pendingExtraction: int,
    consecutiveLlmFailures: int,
    halted: bool,
    haltReason: Option<string>)

  // ---------------------------------------------------------------------------
  // The run state

  /** `CollectionState`: `keys` lists the keys of `products` in insertion order. */
  class CollectionState {
    var runId: string
    var startedAt: string
    var updatedAt: string
    var processedSeeds: seq<string>
    var keys: seq<string>
    var products: map<string, ProductState>
    var consecutiveLlmFailures: int
    var totalLlmFailures: int
    var lastLlmError: Option<string>
    var halted: bool
    var haltReason: Option<string>
    var totalDiscovered: int
    var totalExtracted: int
    var totalFailed: int

    /** `keys` lists the stored products once each. */
    ghost predicate Valid()
      reads this
    {
      && Distinct(keys)
      && (forall k :: k in keys <==> k in products)
    }

    /** Every product is filed under the key `add_product` computes from its id and name. */
    ghost predicate FiledByKey()
      reads this
    {
      Filed(products)
    }

    /** `CollectionState.new`: the run id given, or `defaultId` (the formatted clock) when it is empty. */
    constructor New(runId: Option<string>, defaultId: string, now: string)
      ensures Valid() && FiledByKey()
      ensures this.runId == (if Truthy(runId) then runId.value else defaultId)
      ensures startedAt == now && updatedAt == now
      ensures processedSeeds == [] && keys == [] && products == map[]
      ensures consecutiveLlmFailures == 0 && totalLlmFailures == 0 && lastLlmError == None
      ensures !halted && haltReason == None
      ensures totalDiscovered == 0 && totalExtracted == 0 && totalFailed == 0
    {
      this.runId := if Truthy(runId) then runId.value else defaultId;
      startedAt := now;
      updatedAt := now;
      processedSeeds := [];
      keys := [];
      products := map[];
      consecutiveLlmFailures := 0;
      totalLlmFailures := 0;
      lastLlmError := None;
      halted := false;
      haltReason := None;
      totalDiscovered := 0;
      totalExtracted := 0;
      totalFailed := 0;
    }

    /** `is_seed_processed`. */
    predicate IsSeedProcessed(seed: string)
      reads this
    {
      seed in processedSeeds
    }

    /** `should_halt`. */
    predicate ShouldHalt()
      reads this
    {
      halted
    }

    /**
     * `mark_seed_processed`: appends the seed unless it is already there, so marking
     * twice is marking once and the list stays free of duplicates.
     */
    method MarkSeedProcessed(seed: string)
      modifies this
      ensures processedSeeds == if seed in old(processedSeeds) then old(processedSeeds) else old(processedSeeds) + [seed]
      ensures IsSeedProcessed(seed)
      ensures Distinct(old(processedSeeds)) ==> Distinct(processedSeeds)
      ensures keys == old(keys) && products == old(products)
      ensures consecutiveLlmFailures == old(consecutiveLlmFailures) && totalLlmFailures == old(totalLlmFailures)
      ensures lastLlmError == old(lastLlmError) && halted == old(halted) && haltReason == old(haltReason)
      ensures totalDiscovered == old(totalDiscovered) && totalExtracted == old(totalExtracted)
      ensures totalFailed == old(totalFailed)
      ensures runId == old(runId) && startedAt == old(startedAt) && updatedAt == old(updatedAt)
    {
      if seed !in processedSeeds {
        if Distinct(processedSeeds) {
          DistinctAppend(processedSeeds, seed);
        }
        processedSeeds := processedSeeds + [seed];
      }
    }

    /**
     * `add_product`: a product already filed under its key only takes a new homepage when
     * it has none; a new one is filed, counted, and has a homepage exactly when one was given.
     */
    method AddProduct(name: string, seedQuery: string, saashubUrl: Option<string>, saashubId: Option<string>,
                      homepageUrl: Option<string>, now: string) returns (prod: ProductState)
      requires Valid()
      modifies this
      ensures Valid()
      ensures var key := ProductKey(saashubId, name);
        && (key in old(products) ==>
              && keys == old(keys)
              && products == old(products)[key := Refreshed(old(products)[key], homepageUrl)]
              && totalDiscovered == old(totalDiscovered))
        && (key !in old(products) ==>
              && keys == old(keys) + [key]
              && products == old(products)[key := NewProduct(name, seedQuery, saashubUrl, saashubId, homepageUrl, now)]
              && totalDiscovered == old(totalDiscovered) + 1)
        && prod == products[key]
      ensures old(totalDiscovered) == |old(keys)| ==> totalDiscovered == |keys|
      ensures old(FiledByKey()) ==> FiledByKey()
      ensures processedSeeds == old(processedSeeds)
      ensures consecutiveLlmFailures == old(consecutiveLlmFailures) && totalLlmFailures == old(totalLlmFailures)
      ensures lastLlmError == old(lastLlmError) && halted == old(halted) && haltReason == old(haltReason)
      ensures totalExtracted == old(totalExtracted) && totalFailed == old(totalFailed)
      ensures runId == old(runId) && startedAt == old(startedAt) && updatedAt == old(updatedAt)
    {
      var key := ProductKey(saashubId, name);
      if key in products {
        prod := products[key];
        if Truthy(homepageUrl) && !Truthy(prod.homepageUrl) {
          prod := prod.(homepageUrl := homepageUrl, homepageDiscovered := true);
          if Filed(products) {
            FiledAfterPut(products, key, prod);
          }
          products := products[key := prod];
        } else {
          assert products[key := prod] == products;
        }
        return;
      }
      prod := NewProduct(name, seedQuery, saashubUrl, saashubId, homepageUrl, now);
      if Filed(products) {
        FiledAfterPut(products, key, prod);
      }
      DistinctAppend(keys, key);
      keys := keys + [key];
      products := products[key := prod];
      totalDiscovered := totalDiscovered + 1;
    }

    /** `get_products_needing_homepage`. */
    function ProductsNeedingHomepage(): (r: seq<ProductState>)
      requires Valid()
      reads this
      ensures forall p :: p in r ==> NeedsHomepage(p)
    {
      ValuesOf(KeysNeedingHomepage(keys, products), products)
    }

    /** `get_products_needing_extraction`. */
    function ProductsNeedingExtraction(): (r: seq<ProductState>)
      requires Valid()
      reads this
      ensures forall p :: p in r ==> NeedsExtraction(p)
    {
      ValuesOf(KeysNeedingExtraction(keys, products), products)
    }

    /**
     * `mark_extraction_success`: a known product is extracted, one attempt more, and the
     * run of rate-limit failures is over; an unknown key changes nothing.
     */
    method MarkExtractionSuccess(key: string, now: string)
      modifies this
      ensures key in old(products) ==>
                && products == old(products)[key := old(products)[key].(
                     extracted := true, extractedAt := Some(now),
                     extractionAttempts := old(products)[key].extractionAttempts + 1)]
                && totalExtracted == old(totalExtracted) + 1
                && consecutiveLlmFailures == 0
      ensures key !in old(products) ==>
                products == old(products) && totalExtracted == old(totalExtracted)
                && consecutiveLlmFailures == old(consecutiveLlmFailures)
      ensures keys == old(keys) && processedSeeds == old(processedSeeds)
      ensures totalLlmFailures == old(totalLlmFailures) && lastLlmError == old(lastLlmError)
      ensures halted == old(halted) && haltReason == old(haltReason)
      ensures totalDiscovered == old(totalDiscovered) && totalFailed == old(totalFailed)
      ensures runId == old(runId) && startedAt == old(startedAt) && updatedAt == old(updatedAt)
    {
      if key in products {
        var prod := products[key];
        products := products[key := prod.(extracted := true, extractedAt := Some(now),
                                          extractionAttempts := prod.extractionAttempts + 1)];
        totalExtracted := totalExtracted + 1;
        consecutiveLlmFailures := 0;
      }
    }

    /**
     * `mark_extraction_failure`: the failure is always counted and remembered, also for an
     * unknown key; only a rate-limit failure extends the run of consecutive failures, and
     * the run halts, for good, once that run reaches three. Returns whether it halted now.
     */
    method MarkExtractionFailure(key: string, error: string, isRateLimit: bool, now: string) returns (halt: bool)
      modifies this
      ensures key in old(products) ==>
                products == old(products)[key := old(products)[key].(
                  extractionError := Some(error),
                  extractionAttempts := old(products)[key].extractionAttempts + 1,
                  lastAttemptAt := Some(now))]
      ensures key !in old(products) ==> products == old(products)
      ensures totalFailed == old(totalFailed) + 1 && totalLlmFailures == old(totalLlmFailures) + 1
      ensures lastLlmError == Some(error)
      ensures consecutiveLlmFailures == old(consecutiveLlmFailures) + (if isRateLimit then 1 else 0)
      ensures halt <==> isRateLimit && consecutiveLlmFailures >= HaltThreshold
      ensures halt ==> halted && haltReason == Some(HaltMessage(consecutiveLlmFailures, error))
      ensures !halt ==> halted == old(halted) && haltReason == old(haltReason)
      ensures keys == old(keys) && processedSeeds == old(processedSeeds)
      ensures totalDiscovered == old(totalDiscovered) && totalExtracted == old(totalExtracted)
      ensures runId == old(runId) && startedAt == old(startedAt) && updatedAt == old(updatedAt)
    {
      if key in products {
        var prod := products[key];
        products := products[key := prod.(extractionError := Some(error),
                                          extractionAttempts := prod.extractionAttempts + 1,
                                          lastAttemptAt := Some(now))];
      }
      totalFailed := totalFailed + 1;
      totalLlmFailures := totalLlmFailures + 1;
      lastLlmError := Some(error);
      if isRateLimit {
        consecutiveLlmFailures := consecutiveLlmFailures + 1;
        if consecutiveLlmFailures >= HaltThreshold {
          halted := true;
          haltReason := Some(HaltMessage(consecutiveLlmFailures, error));
          return true;
        }
      }
      return false;
    }

    /** `get_stats`; the two queues never hold more than all the products together. */
    function GetStats(): (s: Stats)
      requires Valid()
      reads this
      ensures s.pendingHomepage + s.pendingExtraction <= |keys|
      ensures s.seedsProcessed == |processedSeeds| && s.halted == halted
    {
      QueuesDisjoint(keys, products);
      Stats(runId, startedAt, updatedAt, |processedSeeds|, totalDiscovered, totalExtracted, totalFailed,
            |ProductsNeedingHomepage()|, |ProductsNeedingExtraction()|, consecutiveLlmFailures,
            halted, haltReason)
    }
  }

  /**
   * Three rate-limit failures in a row halt a run that starts with none, whatever the
   * products.
   */
  method ThreeRateLimitsHalt(s: CollectionState, key: string, error: string, now: string)
    returns (first: bool, second: bool, third: bool)
    requires s.consecutiveLlmFailures == 0 && !s.halted
    modifies s
    ensures !first && !second && third
    ensures s.halted && s.haltReason == Some(HaltMessage(3, error))
  {
    first := s.MarkExtractionFailure(key, error, true, now);
    second := s.MarkExtractionFailure(key, error, true, now);
    third := s.MarkExtractionFailure(key, error, true, now);
  }

  /**
   * A success on a stored product between rate-limit failures starts the count again:
   * two failures, a success, then two more failures leave the run going with a streak of 2.
   */
  method SuccessRestartsStreak(s: CollectionState, key: string, error: string, now: string)
    returns (halts: seq<bool>)
    requires s.consecutiveLlmFailures == 0 && !s.halted && key in s.products
    modifies s
    ensures halts == [false, false, false, false]
    ensures !s.halted && s.consecutiveLlmFailures == 2
  {
    var a := s.MarkExtractionFailure(key, error, true, now);
    var b := s.MarkExtractionFailure(key, error, true, now);
    s.MarkExtractionSuccess(key, now);
    var c := s.MarkExtractionFailure(key, error, true, now);
    var d := s.MarkExtractionFailure(key, error, true, now);
    halts := [a, b, c, d];
  }
}

/**
 * The per-source rate limiter: request spacing, exponential backoff after a rate-limit
 * error, the retry loop around a call, the test for rate-limit errors, and the state
 * snapshot it saves and restores. The clock is a parameter: a sleep of `d` seconds moves
 * it on by `max(0, d)`. The pause callbacks and the logging are not part of this model.
 */
module RateLimiter {
  import opened Wrappers
  import opened Strings

  datatype Source = ProductHuntApi | OpenAiApi | SaasHubApi

  /** The string each source is known by. */
  function SourceValue(s: Source): string {
    match s
    case ProductHuntApi => "producthunt"
    case OpenAiApi => "openai"
    case SaasHubApi => "saashub"
  }

  /** `RateLimitSource(v)`: the source known by `v`, if any. */
  function SourceFromValue(v: string): (r: Option<Source>)
    ensures r.Some? ==> SourceValue(r.value) == v
    ensures r.None? ==> forall s :: SourceValue(s) != v
  {
    if v == "producthunt" then Some(ProductHuntApi)
    else if v == "openai" then Some(OpenAiApi)
    else if v == "saashub" then Some(SaasHubApi)
    else None
  }

  const AllSources: set<Source> := {ProductHuntApi, OpenAiApi, SaasHubApi}

  lemma EverySourceListed()
    ensures forall s: Source :: s in AllSources
  {
    forall s: Source
      ensures s in AllSources
    {
      match s
      case ProductHuntApi =>
      case OpenAiApi =>
      case SaasHubApi =>
    }
  }

  /** Every source is read back from the string it is known by. */
  lemma SourceValueRoundTrip(s: Source)
    ensures SourceFromValue(SourceValue(s)) == Some(s)
  {
  }

  /** `RateLimitConfig`. */
  datatype Config = Config(
    source: Source,
    requestsPerPeriod: int,
    periodSeconds: int,
    defaultRetrySeconds: int,
    maxRetrySeconds: int,
    backoffMultiplier: real)

  /** `min_delay_seconds`: the spacing that keeps `requestsPerPeriod` requests within a period. */
  function MinDelaySeconds(c: Config): (d: real)
    requires c.requestsPerPeriod != 0
    ensures d * c.requestsPerPeriod as real == c.periodSeconds as real
  {
    c.periodSeconds as real / c.requestsPerPeriod as real
  }

  /** `RATE_LIMIT_CONFIGS`: 500 per 15 minutes, 60 per minute, 5 per minute. */
  const DefaultConfigs: map<Source, Config> := map[
    ProductHuntApi := Config(ProductHuntApi, 500, 15 * 60, 15 * 60, 3600, 2.0),
    OpenAiApi := Config(OpenAiApi, 60, 60, 60, 300, 2.0),
    SaasHubApi := Config(SaasHubApi, 5, 60, 60, 3600, 2.0)]

  /** The package's own limits: a request every 1.8 s, every second, every 12 s. */
  lemma DefaultMinDelays()
    ensures MinDelaySeconds(DefaultConfigs[ProductHuntApi]) == 1.8
    ensures MinDelaySeconds(DefaultConfigs[OpenAiApi]) == 1.0
    ensures MinDelaySeconds(DefaultConfigs[SaasHubApi]) == 12.0
    ensures forall s :: s in DefaultConfigs ==>
              DefaultConfigs[s].source == s && DefaultConfigs[s].requestsPerPeriod > 0
              && 0 <= DefaultConfigs[s].defaultRetrySeconds <= DefaultConfigs[s].maxRetrySeconds
              && DefaultConfigs[s].backoffMultiplier >= 1.0
  {
    assert MinDelaySeconds(DefaultConfigs[ProductHuntApi]) * 500.0 == 900.0;
  }

  /** `RateLimitState`; the pause and resume times are kept as clock readings. */
  datatype LimitState = LimitState(
    source: Source,
    lastRequestTime: real,
    requestCount: int,
    periodStartTime: real,
    consecutiveFailures: int,
    currentRetryDelay: real,
    pausedAt: Option<real>,
    resumeAt: Option<real>)

  function FreshState(s: Source): LimitState {
    LimitState(s, 0.0, 0, 0.0, 0, 0.0, None, None)
  }

  /** `_get_state`: the state kept for `s`, or a fresh one. */
  function StateOf(states: map<Source, LimitState>, s: Source): LimitState {
    if s in states then states[s] else FreshState(s)
  }

  /** `reset_period`, at clock reading `now`. */
  function ResetPeriod(st: LimitState, now: real): LimitState {
    st.(requestCount := 0, periodStartTime := now)
  }

  /** `reset_failures`. */
  function ResetFailures(st: LimitState): LimitState {
    st.(consecutiveFailures := 0, currentRetryDelay := 0.0, pausedAt := None, resumeAt := None)
  }

  function Max(a: real, b: real): real {
    if a >= b then a else b
  }

  function Min(a: real, b: real): real {
    if b < a then b else a
  }

  /** How long `wait` sleeps at clock reading `now`. */
  function WaitSleep(cfg: Config, st: LimitState, now: real): real
    requires cfg.requestsPerPeriod != 0
  {
    Max(0.0, MinDelaySeconds(cfg) - (now - st.lastRequestTime))
  }

  /**
   * The state after `wait` at clock reading `now`: a new period when the old one is over,
   * one request more, and the request is made at least `min_delay_seconds` after the last
   * one, and not before `now`.
   */
  function Waited(cfg: Config, st: LimitState, now: real): (r: LimitState)
    requires cfg.requestsPerPeriod != 0
    ensures r.lastRequestTime >= now
    ensures r.lastRequestTime >= st.lastRequestTime + MinDelaySeconds(cfg)
    ensures r.lastRequestTime == now || r.lastRequestTime == st.lastRequestTime + MinDelaySeconds(cfg)
    ensures now - st.periodStartTime >= cfg.periodSeconds as real ==> r.requestCount == 1 && r.periodStartTime == now
    ensures now - st.periodStartTime < cfg.periodSeconds as real ==>
              r.requestCount == st.requestCount + 1 && r.periodStartTime == st.periodStartTime
    ensures r.source == st.source && r.consecutiveFailures == st.consecutiveFailures
    ensures r.currentRetryDelay == st.currentRetryDelay && r.pausedAt == st.pausedAt && r.resumeAt == st.resumeAt
  {
    var current := if now - st.periodStartTime >= cfg.periodSeconds as real then ResetPeriod(st, now) else st;
    current.(lastRequestTime := now + WaitSleep(cfg, st, now), requestCount := current.requestCount + 1)
  }

  /**
   * The pause `handle_rate_limit` picks: a non-zero `retry_after` as given, else the default
   * for a first failure, else the last pause times the multiplier, capped at the maximum.
   */
  function RetryDelay(cfg: Config, st: LimitState, retryAfter: Option<int>): (d: real)
    ensures retryAfter.Some? && retryAfter.value != 0 ==> d == retryAfter.value as real
    ensures (retryAfter.None? || retryAfter.value == 0) && st.consecutiveFailures == 0 ==>
              d == cfg.defaultRetrySeconds as real
    ensures (retryAfter.None? || retryAfter.value == 0) && st.consecutiveFailures != 0 ==>
              d == Grown(cfg, st.currentRetryDelay)
  {
    if retryAfter.Some? && retryAfter.value != 0 then retryAfter.value as real
    else if st.consecutiveFailures == 0 then cfg.defaultRetrySeconds as real
    else Grown(cfg, st.currentRetryDelay)
  }

  /**
   * The state after `handle_rate_limit` at clock reading `now`: one failure more, the pause
   * remembered with when it began and ends, and a new period once the pause is slept.
   */
  function RateLimited(cfg: Config, st: LimitState, retryAfter: Option<int>, now: real): LimitState {
    var d := RetryDelay(cfg, st, retryAfter);
    st.(consecutiveFailures := st.consecutiveFailures + 1, currentRetryDelay := d,
        pausedAt := Some(now), resumeAt := Some(now + d),
        requestCount := 0, periodStartTime := now + Max(0.0, d))
  }

  // ---------------------------------------------------------------------------
  // Backoff

  /** The pause of the `n`-th rate-limit error in a row (from 0) when none gives `retry_after`. */
  function BackoffDelay(cfg: Config, n: nat): real {
    if n == 0 then cfg.defaultRetrySeconds as real else Grown(cfg, BackoffDelay(cfg, n - 1))
  }

  /** The pause after one of `d`: `d` times the multiplier, capped at the maximum. */
  function Grown(cfg: Config, d: real): real {
    Min(d * cfg.backoffMultiplier, cfg.maxRetrySeconds as real)
  }

  /** With a multiplier of at least one, a pause within the maximum does not shrink. */
  lemma GrownWithinCap(cfg: Config, d: real)
    requires 0.0 <= d <= cfg.maxRetrySeconds as real && cfg.backoffMultiplier >= 1.0
    ensures d <= Grown(cfg, d) <= cfg.maxRetrySeconds as real
  {
    GrowsByMultiplier(d, cfg.backoffMultiplier);
  }

  /** A first rate-limit error without `retry_after` pauses for the default. */
  lemma FirstPauseIsDefault(cfg: Config, st: LimitState, now: real)
    requires st.consecutiveFailures == 0
    ensures RateLimited(cfg, st, None, now).currentRetryDelay == BackoffDelay(cfg, 0)
    ensures RateLimited(cfg, st, None, now).consecutiveFailures == 1
  {
  }

  /** Each further rate-limit error without `retry_after` takes the next pause of the schedule. */
  lemma NextPauseFollowsSchedule(cfg: Config, st: LimitState, n: nat, now: real)
    requires st.consecutiveFailures > 0 && st.currentRetryDelay == BackoffDelay(cfg, n)
    ensures RateLimited(cfg, st, None, now).currentRetryDelay == BackoffDelay(cfg, n + 1)
  {
  }

  /** A success resets the schedule: the next rate-limit error pauses for the default again. */
  lemma ResetRestartsSchedule(cfg: Config, st: LimitState, retryAfter: Option<int>, now: real)
    requires retryAfter.None? || retryAfter.value == 0
    ensures RateLimited(cfg, ResetFailures(st), retryAfter, now).currentRetryDelay == cfg.defaultRetrySeconds as real
    ensures RateLimited(cfg, ResetFailures(st), retryAfter, now).consecutiveFailures == 1
  {
  }

  /**
   * With a non-negative default no larger than the maximum and a multiplier of at least
   * one, as in every configuration of the package, the pauses never shrink and never
   * exceed the maximum.
   */
  lemma {:induction false} BackoffBounded(cfg: Config, n: nat)
    requires 0 <= cfg.defaultRetrySeconds <= cfg.maxRetrySeconds
    requires cfg.backoffMultiplier >= 1.0
    ensures 0.0 <= BackoffDelay(cfg, n) <= BackoffDelay(cfg, n + 1) <= cfg.maxRetrySeconds as real
  {
    if n > 0 {
      BackoffBounded(cfg, n - 1);
    }
    GrownWithinCap(cfg, BackoffDelay(cfg, n));
  }

  lemma GrowsByMultiplier(d: real, m: real)
    requires d >= 0.0 && m >= 1.0
    ensures d * m >= d
  {
    assert d * m == d + d * (m - 1.0);
  }

  /** Past the first pause, the cap holds whatever the configuration. */
  lemma BackoffCapped(cfg: Config, n: nat)
    requires n > 0
    ensures BackoffDelay(cfg, n) <= cfg.maxRetrySeconds as real
  {
  }

  // ---------------------------------------------------------------------------
  // Rate-limit errors

  /**
   * `_is_rate_limit_error`, on the error's text: "429", "rate limit" and "too many requests"
   * for every source, "rate_limit_exceeded" and "quota" for OpenAI, "throttle" for Product Hunt.
   */
  function IsRateLimitError(message: string, source: Source): (b: bool)
    ensures b <==>
      var t := Lower(message);
      || Contains(t, "429") || Contains(t, "rate limit") || Contains(t, "too many requests")
      || (source == OpenAiApi && (Contains(t, "rate_limit_exceeded") || Contains(t, "quota")))
      || (source == ProductHuntApi && Contains(t, "throttle"))
  {
    var t := Lower(message);
    if Contains(t, "429") || Contains(t, "rate limit") then true
    else if Contains(t, "too many requests") then true
    else if source == OpenAiApi && (Contains(t, "rate_limit_exceeded") || Contains(t, "quota")) then true
    else source == ProductHuntApi && Contains(t, "throttle")
  }

  /** The test ignores letter case. */
  lemma RateLimitErrorIgnoresCase(message: string, source: Source)
    ensures IsRateLimitError(Lower(message), source) == IsRateLimitError(message, source)
  {
    LowerOfLower(message);
  }

  /** What counts for SaaSHub counts for every source. */
  lemma CommonIndicators(message: string, source: Source)
    requires IsRateLimitError(message, SaasHubApi)
    ensures IsRateLimitError(message, source)
  {
  }

  /** "Quota" is a rate-limit error for OpenAI only. */
  lemma QuotaIsOpenAiOnly()
    ensures IsRateLimitError("Quota", OpenAiApi) && !IsRateLimitError("Quota", SaasHubApi)
  {
    var t := Lower("Quota");
    assert t == "quota";
    assert Contains(t, "quota") by { assert t[..5] == "quota"; }
    QuotaIndicators();
  }

  /** "throttled" is a rate-limit error for Product Hunt only. */
  lemma ThrottledIsProductHuntOnly()
    ensures IsRateLimitError("throttled", ProductHuntApi) && !IsRateLimitError("throttled", OpenAiApi)
  {
    LowerThrottled();
    assert Contains("throttled", "throttle") by { assert "throttled"[..8] == "throttle"; }
    ThrottledIndicators();
  }

  lemma LowerThrottled()
    ensures Lower("throttled") == "throttled"
  {
  }

  lemma QuotaIndicators()
    ensures !Contains("quota", "429") && !Contains("quota", "rate limit") && !Contains("quota", "too many requests")
  {
    NotContains("quota", "429");
    NotContains("quota", "rate limit");
    NotContains("quota", "too many requests");
  }

  lemma ThrottledIndicators()
    ensures !Contains("throttled", "429") && !Contains("throttled", "rate limit")
    ensures !Contains("throttled", "too many requests") && !Contains("throttled", "rate_limit_exceeded")
    ensures !Contains("throttled", "quota")
  {
    NotContains("throttled", "429");
    NotContains("throttled", "rate limit");
    NotContains("throttled", "too many requests");
    NotContains("throttled", "rate_limit_exceeded");
    NotContains("throttled", "quota");
  }

  /** `s` cannot contain `sub` when `sub` is longer or its first character is not in `s`. */
  lemma {:induction false} NotContains(s: string, sub: string)
    requires |sub| > 0 && (|sub| > |s| || sub[0] !in s)
    ensures !Contains(s, sub)
    decreases |s|
  {
    if |sub| <= |s| {
      assert s[..|sub|][0] == s[0];
      assert s[0] in s;
    }
    if |s| > 0 {
      if sub[0] !in s {
        assert forall c :: c in s[1..] ==> c in s;
      }
      NotContains(s[1..], sub);
    }
  }

  // ---------------------------------------------------------------------------
  // The saved snapshot

  /** One source's entry of the state dict; `None` is a missing key. */
  datatype Saved = Saved(
    lastRequestTime: Option<real>,
    requestCount: Option<int>,
    periodStartTime: Option<real>,
    consecutiveFailures: Option<int>,
    currentRetryDelay: Option<real>,
    pausedAt: Option<real>,
    resumeAt: Option<real>)

  function SavedOf(st: LimitState): Saved {
    Saved(Some(st.lastRequestTime), Some(st.requestCount), Some(st.periodStartTime),
          Some(st.consecutiveFailures), Some(st.currentRetryDelay), st.pausedAt, st.resumeAt)
  }

  /** The state `load_state_dict` builds for `s` from its entry; a missing key takes its default. */
  function Restored(s: Source, sv: Saved): (st: LimitState)
    ensures st.source == s
    ensures sv == Saved(None, None, None, None, None, None, None) ==> st == FreshState(s)
  {
    LimitState(s, sv.lastRequestTime.GetOr(0.0), sv.requestCount.GetOr(0), sv.periodStartTime.GetOr(0.0),
               sv.consecutiveFailures.GetOr(0), sv.currentRetryDelay.GetOr(0.0), sv.pausedAt, sv.resumeAt)
  }

  /** Each state sits under its own source. */
  predicate SelfKeyed(states: map<Source, LimitState>) {
    forall s :: s in states ==> states[s].source == s
  }

  /** `get_state_dict`: every state, under the string its source is known by. */
  function StateDict(states: map<Source, LimitState>): (d: map<string, Saved>)
    ensures forall s :: s in states <==> SourceValue(s) in d
    ensures forall s :: s in states ==> d[SourceValue(s)] == SavedOf(states[s])
  {
    var d := map v | v in {"producthunt", "openai", "saashub"} && SourceFromValue(v).Some?
                                                           && SourceFromValue(v).value in states
                   :: SavedOf(states[SourceFromValue(v).value]);
    assert forall s :: SourceFromValue(SourceValue(s)) == Some(s) by {
      forall s ensures SourceFromValue(SourceValue(s)) == Some(s) {
        SourceValueRoundTrip(s);
      }
    }
    d
  }

  /** The states after `load_state_dict(d)`: every source `d` names is restored from its entry. */
  function Loaded(states: map<Source, LimitState>, d: map<string, Saved>): (r: map<Source, LimitState>)
    ensures forall s :: s in r <==> s in states || SourceValue(s) in d
    ensures forall s :: s in r ==>
              r[s] == if SourceValue(s) in d then Restored(s, d[SourceValue(s)]) else states[s]
  {
    EverySourceListed();
    map s | s in AllSources && (s in states || SourceValue(s) in d)
          :: if SourceValue(s) in d then Restored(s, d[SourceValue(s)]) else states[s]
  }

  /** Saving then loading gives every state back, field by field. */
  lemma LoadSavedRestores(states: map<Source, LimitState>)
    requires SelfKeyed(states)
    ensures Loaded(states, StateDict(states)) == states
  {
    var d := StateDict(states);
    var r := Loaded(states, d);
    assert r.Keys == states.Keys;
    forall s | s in r
      ensures r[s] == states[s]
    {
      assert r[s] == Restored(s, d[SourceValue(s)]);
    }
  }

  // ---------------------------------------------------------------------------
  // The retry loop

  /** What the wrapped call does on one attempt; `retryAfter` is what `_extract_retry_after` finds. */
  datatype CallOutcome<T> = Succeeded(value: T) | Failed(message: string, retryAfter: Option<int>)

  /** One attempt: the clock when it starts, what the call does, the clock when it is over. */
  datatype Attempt<T> = Attempt(startedAt: real, outcome: CallOutcome<T>, endedAt: real)

  /** How `execute_with_retry` ends: the call's value, the error it re-raises, or no attempt at all. */
  datatype RetryResult<T> = Returned(value: T) | Raised(message: string) | RetriesExhausted | Unconfigured

  datatype RetryRun<T> = RetryRun(result: RetryResult<T>, state: LimitState, calls: nat)

  /** The attempts from number `k` on, with `st` the source's state before attempt `k`. */
  function Retry<T(==)>(cfg: Config, source: Source, attempts: seq<Attempt<T>>, maxRetries: int,
                        st: LimitState, k: nat): RetryRun<T>
    requires cfg.requestsPerPeriod != 0
    requires maxRetries < |attempts|
    requires k == 0 || k <= maxRetries + 1
    decreases maxRetries + 1 - k
  {
    if k >= maxRetries + 1 then RetryRun(RetriesExhausted, st, k)
    else
      var w := Waited(cfg, st, attempts[k].startedAt);
      match attempts[k].outcome
      case Succeeded(v) => RetryRun(Returned(v), ResetFailures(w), k + 1)
      case Failed(msg, retryAfter) =>
        if !IsRateLimitError(msg, source) || k >= maxRetries then RetryRun(Raised(msg), w, k + 1)
        else Retry(cfg, source, attempts, maxRetries, RateLimited(cfg, w, retryAfter, attempts[k].endedAt), k + 1)
  }

  /**
   * The loop from attempt `k` on: with no attempt left it ends at once; otherwise the call
   * is made at least once and at most until `max_retries`, every attempt but the last failed
   * with a rate-limit error, the last one ended the loop, and a returned value leaves no
   * failure counted.
   */
  lemma {:induction false} RetryEnds<T>(cfg: Config, source: Source, attempts: seq<Attempt<T>>, maxRetries: int,
                                           st: LimitState, k: nat)
    requires cfg.requestsPerPeriod != 0
    requires maxRetries < |attempts|
    requires k == 0 || k <= maxRetries + 1
    ensures var r := Retry(cfg, source, attempts, maxRetries, st, k);
            && (k >= maxRetries + 1 ==> r == RetryRun(RetriesExhausted, st, k))
            && (k < maxRetries + 1 ==> k < r.calls <= maxRetries + 1)
            && (k < maxRetries + 1 ==> RetriedUpTo(source, attempts, k, r.calls - 1))
            && (k < maxRetries + 1 ==> EndedBy(r.result, source, attempts, maxRetries, r.calls - 1))
            && (r.result.Returned? ==> r.state.consecutiveFailures == 0)
    decreases maxRetries + 1 - k
  {
    if k < maxRetries + 1 {
      var w := Waited(cfg, st, attempts[k].startedAt);
      match attempts[k].outcome
      case Succeeded(v) =>
      case Failed(msg, retryAfter) =>
        if IsRateLimitError(msg, source) && k < maxRetries {
          RetryEnds(cfg, source, attempts, maxRetries, RateLimited(cfg, w, retryAfter, attempts[k].endedAt), k + 1);
        }
    }
  }

  /** Attempts `k` to `last - 1` all failed with a rate-limit error. */
  predicate RetriedUpTo<T>(source: Source, attempts: seq<Attempt<T>>, k: nat, last: nat)
    requires last < |attempts|
  {
    forall j :: k <= j < last ==> attempts[j].outcome.Failed? && IsRateLimitError(attempts[j].outcome.message, source)
  }

  /**
   * Attempt `last` ended the loop: it succeeded and its value is returned, or it failed with
   * an error that is not a rate-limit error, or with one when no retry is left, and that
   * error is re-raised.
   */
  predicate EndedBy<T(==)>(result: RetryResult<T>, source: Source, attempts: seq<Attempt<T>>, maxRetries: int, last: nat)
    requires last < |attempts|
  {
    match attempts[last].outcome
    case Succeeded(v) => result == Returned(v)
    case Failed(msg, _) => result == Raised(msg) && (!IsRateLimitError(msg, source) || last == maxRetries)
  }

  /** The rate limiter: a configuration and a state per source. */
  class Limiter {
    var configs: map<Source, Config>
    var states: map<Source, LimitState>

    ghost predicate Valid()
      reads this
    {
      && (forall s :: s in configs ==> configs[s].requestsPerPeriod != 0)
      && SelfKeyed(states)
    }

    /** `RateLimiter(configs)`: the configurations given, or the package's when none (or none at all) are. */
    constructor (custom: Option<map<Source, Config>>)
      requires custom.Some? ==> forall s :: s in custom.value ==> custom.value[s].requestsPerPeriod != 0
      ensures Valid()
      ensures configs == if custom.Some? && custom.value != map[] then custom.value else DefaultConfigs
      ensures states == map s | s in configs :: FreshState(s)
    {
      var chosen := if custom.Some? && custom.value != map[] then custom.value else DefaultConfigs;
      configs := chosen;
      states := map s | s in chosen :: FreshState(s);
    }

    /** `wait`: false, changing nothing, when the source has no configuration. */
    method Wait(source: Source, now: real) returns (configured: bool, slept: real)
      requires Valid()
      modifies this
      ensures Valid() && configs == old(configs)
      ensures configured == (source in configs)
      ensures !configured ==> states == old(states) && slept == 0.0
      ensures configured ==>
                && slept == WaitSleep(configs[source], StateOf(old(states), source), now)
                && states == old(states)[source := Waited(configs[source], StateOf(old(states), source), now)]
    {
      if source !in configs {
        return false, 0.0;
      }
      var cfg := configs[source];
      var st := StateOf(states, source);
      var current := st;
      if now - current.periodStartTime >= cfg.periodSeconds as real {
        current := ResetPeriod(current, now);
      }
      var elapsed := now - current.lastRequestTime;
      var requiredDelay := MinDelaySeconds(cfg) - elapsed;
      slept := 0.0;
      if requiredDelay > 0.0 {
        slept := requiredDelay;
      }
      current := current.(lastRequestTime := now + slept, requestCount := current.requestCount + 1);
      states := states[source := current];
      configured := true;
    }

    /** `handle_rate_limit`: returns the pause; false, changing nothing, for an unconfigured source. */
    method HandleRateLimit(source: Source, retryAfter: Option<int>, now: real) returns (configured: bool, delay: real)
      requires Valid()
      modifies this
      ensures Valid() && configs == old(configs)
      ensures configured == (source in configs)
      ensures !configured ==> states == old(states)
      ensures configured ==>
                && delay == RetryDelay(configs[source], StateOf(old(states), source), retryAfter)
                && states == old(states)[source := RateLimited(configs[source], StateOf(old(states), source), retryAfter, now)]
    {
      if source !in configs {
        return false, 0.0;
      }
      var cfg := configs[source];
      var st := StateOf(states, source);
      if retryAfter.Some? && retryAfter.value != 0 {
        delay := retryAfter.value as real;
      } else if st.consecutiveFailures == 0 {
        delay := cfg.defaultRetrySeconds as real;
      } else {
        delay := Grown(cfg, st.currentRetryDelay);
      }
      st := st.(consecutiveFailures := st.consecutiveFailures + 1, currentRetryDelay := delay,
                pausedAt := Some(now), resumeAt := Some(now + delay));
      var resumed := now + Max(0.0, delay);
      st := ResetPeriod(st, resumed);
      states := states[source := st];
      configured := true;
    }

    /**
     * `execute_with_retry`, with `attempts[k]` what the call does on attempt `k`: it waits
     * before each attempt, returns the first success after resetting the failures, re-raises
     * a non-rate-limit error at once or a rate-limit error when no retry is left, and
     * otherwise handles the rate limit and tries again, so the call is made at most
     * `max_retries + 1` times.
     */
    method ExecuteWithRetry<T(==)>(source: Source, attempts: seq<Attempt<T>>, maxRetries: int)
      returns (result: RetryResult<T>, calls: nat)
      requires Valid()
      requires maxRetries < |attempts|
      modifies this
      ensures Valid() && configs == old(configs)
      ensures source !in configs ==>
                && states == old(states)[source := StateOf(old(states), source)]
                && result == (if maxRetries >= 0 then Unconfigured else RetriesExhausted) && calls == 0
      ensures source in configs ==>
                var run := Retry(configs[source], source, attempts, maxRetries, StateOf(old(states), source), 0);
                && result == run.result && calls == run.calls
                && states == old(states)[source := run.state]
    {
      var st := StateOf(states, source);
      states := states[source := st];
      if source !in configs {
        if maxRetries >= 0 {
          return Unconfigured, 0;
        }
        return RetriesExhausted, 0;
      }
      result, calls := RetryLoop(source, attempts, maxRetries);
    }

    /** The attempts of `execute_with_retry` once the source's state exists. */
    method RetryLoop<T(==)>(source: Source, attempts: seq<Attempt<T>>, maxRetries: int)
      returns (result: RetryResult<T>, calls: nat)
      requires Valid()
      requires maxRetries < |attempts|
      requires source in configs && source in states
      modifies this
      ensures Valid() && configs == old(configs)
      ensures var run := Retry(configs[source], source, attempts, maxRetries, old(states)[source], 0);
              && result == run.result && calls == run.calls
              && states == old(states)[source := run.state]
    {
      ghost var cfg := configs[source];
      ghost var run := Retry(cfg, source, attempts, maxRetries, states[source], 0);
      var attempt := 0;
      while attempt <= maxRetries
        invariant Valid() && configs == old(configs)
        invariant attempt == 0 || attempt <= maxRetries + 1
        invariant source in states
        invariant states == old(states)[source := states[source]]
        invariant Retry(cfg, source, attempts, maxRetries, states[source], attempt) == run
        decreases maxRetries + 1 - attempt
      {
        ghost var before := states[source];
        var _, _ := Wait(source, attempts[attempt].startedAt);
        UpdateAgain(old(states), source, before, states[source]);
        ghost var waited := states[source];
        match attempts[attempt].outcome {
          case Succeeded(v) =>
            states := states[source := ResetFailures(states[source])];
            UpdateAgain(old(states), source, waited, states[source]);
            return Returned(v), attempt + 1;
          case Failed(msg, retryAfter) =>
            if !IsRateLimitError(msg, source) {
              return Raised(msg), attempt + 1;
            }
            if attempt >= maxRetries {
              return Raised(msg), attempt + 1;
            }
            var _, _ := HandleRateLimit(source, retryAfter, attempts[attempt].endedAt);
            UpdateAgain(old(states), source, waited, states[source]);
        }
        attempt := attempt + 1;
      }
      return RetriesExhausted, attempt;
    }

    /** `get_state_dict`. */
    function GetStateDict(): (d: map<string, Saved>)
      reads this
      ensures forall s :: s in states <==> SourceValue(s) in d
    {
      StateDict(states)
    }

    /**
     * `load_state_dict`: each entry under a known source string replaces that source's state,
     * with defaults for missing keys; entries under unknown strings are skipped.
     */
    method LoadStateDict(d: map<string, Saved>)
      requires Valid()
      modifies this
      ensures Valid() && configs == old(configs)
      ensures states == Loaded(old(states), d)
    {
      var pending := d.Keys;
      ghost var done: set<string> := {};
      while pending != {}
        invariant Valid() && configs == old(configs)
        invariant pending + done == d.Keys && pending !! done
        invariant LoadedFrom(old(states), d, done, states)
        decreases |pending|
      {
        var v :| v in pending;
        ghost var before := states;
        var source := SourceFromValue(v);
        if source.Some? {
          states := states[source.value := Restored(source.value, d[v])];
        }
        LoadOne(old(states), d, done, v, before);
        pending := pending - {v};
        done := done + {v};
      }
      LoadedAll(old(states), d, states);
    }
  }

  /** `after` is `before` with the entries of `d` under the strings in `done` loaded. */
  ghost predicate LoadedFrom(before: map<Source, LimitState>, d: map<string, Saved>, done: set<string>,
                             after: map<Source, LimitState>)
  {
    && (forall s :: s in after <==> s in before || (SourceValue(s) in done && SourceValue(s) in d))
    && (forall s :: s in after ==>
          after[s] == if SourceValue(s) in done && SourceValue(s) in d then Restored(s, d[SourceValue(s)]) else before[s])
  }

  /** Loading one more entry. */
  lemma LoadOne(before: map<Source, LimitState>, d: map<string, Saved>, done: set<string>, v: string,
                after: map<Source, LimitState>)
    requires v in d && LoadedFrom(before, d, done, after)
    ensures SourceFromValue(v).None? ==> LoadedFrom(before, d, done + {v}, after)
    ensures SourceFromValue(v).Some? ==>
              LoadedFrom(before, d, done + {v}, after[SourceFromValue(v).value := Restored(SourceFromValue(v).value, d[v])])
  {
  }

  /** Once every entry is loaded, the states are `Loaded(before, d)`. */
  lemma LoadedAll(before: map<Source, LimitState>, d: map<string, Saved>, after: map<Source, LimitState>)
    requires LoadedFrom(before, d, d.Keys, after)
    ensures after == Loaded(before, d)
  {
  }

  lemma UpdateAgain<K, V>(m: map<K, V>, k: K, a: V, b: V)
    ensures m[k := a][k := b] == m[k := b]
  {
  }

}

/**
 * The target list: targets discovered on Product Hunt, their extraction status,
 * and the index from normalized homepage URL to target id that keeps the list
 * free of duplicates.
 */
module Targets {
  import opened Wrappers
  import opened Strings
  import opened Sequences
  import opened Urls
  import opened ProductHunt

  // ---------------------------------------------------------------------------
  // URL normalization

  /** The path suffixes removed, in this order, when present at the end of a path. */
  const LocaleSuffixes: seq<string> := ["/en", "/en-us", "/en-gb", "/home", "/index"]

  /** Each suffix of `sufs` in turn is cut off `path` if `path` ends with it at that point. */
  function StripSuffixes(path: string, sufs: seq<string>): (r: string)
    ensures StartsWith(path, r)
    decreases |sufs|
  {
    if sufs == [] then path
    else
      var p := if EndsWith(path, sufs[0]) then path[..|path| - |sufs[0]|] else path;
      StripSuffixes(p, sufs[1..])
  }

  /** The URL lower-cased and stripped of surrounding blanks. */
  function Cleaned(url: string): string {
    Strip(Lower(url))
  }

  /** The key built from a split URL: host without "www.", then the trimmed path. */
  function PartsKey(parts: UrlParts): string {
    RemoveAll(parts.netloc, "www.") + StripSuffixes(RStrip(parts.path, '/'), LocaleSuffixes)
  }

  /** The deduplication key of a URL. */
  function NormalizedUrl(url: string): string {
    if url == "" then "" else PartsKey(SplitUrl(Cleaned(url)))
  }

  /** The loop of `normalize_url` over the locale and index suffixes. */
  method StripLocaleSuffixes(path: string) returns (r: string)
    ensures r == StripSuffixes(path, LocaleSuffixes)
  {
    r := path;
    for i := 0 to |LocaleSuffixes|
      invariant StripSuffixes(r, LocaleSuffixes[i..]) == StripSuffixes(path, LocaleSuffixes)
    {
      var suffix := LocaleSuffixes[i];
      assert LocaleSuffixes[i..][1..] == LocaleSuffixes[i + 1..];
      if EndsWith(r, suffix) {
        r := r[..|r| - |suffix|];
      }
    }
  }

  /** `TargetManager.normalize_url`. */
  method NormalizeUrl(url: string) returns (r: string)
    ensures r == NormalizedUrl(url)
  {
    if url == "" {
      return "";
    }
    var parts := SplitUrl(Cleaned(url));
    var domain := RemoveAll(parts.netloc, "www.");
    var path := StripLocaleSuffixes(RStrip(parts.path, '/'));
    return domain + path;
  }

  // ---------------------------------------------------------------------------
  // Facts about the normalized form

  /**
   * What the normalized form of a well-formed URL is: its host with "www." removed,
   * then its path with trailing slashes and the locale suffixes cut off. Scheme,
   * query and fragment play no part.
   */
  lemma NormalizedUrlParts(scheme: string, host: string, path: string, tail: string)
    requires IsScheme(scheme) && Plain(scheme) && Plain(host) && Plain(path) && Plain(tail)
    requires Avoids(host, {'/', '?', '#'})
    requires path == [] || path[0] == '/'
    requires Avoids(path, {'?', '#'})
    requires IsTail(tail)
    ensures NormalizedUrl(scheme + "://" + host + path + tail)
         == RemoveAll(host, "www.") + StripSuffixes(RStrip(path, '/'), LocaleSuffixes)
  {
    SplitUrlOf(scheme, host, path, tail);
    PlainIsFixed(scheme + "://" + host + path + tail);
  }

  /** Letter case plays no part in the normalized form. */
  lemma NormalizeIgnoresCase(url: string)
    ensures NormalizedUrl(Lower(url)) == NormalizedUrl(url)
  {
    LowerOfLower(url);
  }

  /** "http://..." and "https://..." (any two schemes) give the same normalized form. */
  lemma NormalizeIgnoresScheme(scheme1: string, scheme2: string, host: string, path: string, tail: string)
    requires IsScheme(scheme1) && Plain(scheme1) && IsScheme(scheme2) && Plain(scheme2)
    requires Plain(host) && Plain(path) && Plain(tail)
    requires Avoids(host, {'/', '?', '#'})
    requires path == [] || path[0] == '/'
    requires Avoids(path, {'?', '#'})
    requires IsTail(tail)
    ensures NormalizedUrl(scheme1 + "://" + host + path + tail)
         == NormalizedUrl(scheme2 + "://" + host + path + tail)
  {
    NormalizedUrlParts(scheme1, host, path, tail);
    NormalizedUrlParts(scheme2, host, path, tail);
  }

  /** A "www." in front of the host plays no part in the normalized form. */
  lemma NormalizeIgnoresWww(scheme: string, host: string, path: string, tail: string)
    requires IsScheme(scheme) && Plain(scheme) && Plain(host) && Plain(path) && Plain(tail)
    requires Avoids(host, {'/', '?', '#'})
    requires path == [] || path[0] == '/'
    requires Avoids(path, {'?', '#'})
    requires IsTail(tail)
    ensures NormalizedUrl(scheme + "://" + ("www." + host) + path + tail)
         == NormalizedUrl(scheme + "://" + host + path + tail)
  {
    var www := "www." + host;
    assert Plain("www.");
    PlainConcat("www.", host);
    assert Avoids("www.", {'/', '?', '#'});
    AvoidsConcat("www.", host, {'/', '?', '#'});
    NormalizedUrlParts(scheme, www, path, tail);
    NormalizedUrlParts(scheme, host, path, tail);
    assert StartsWith(www, "www.");
    assert www[4..] == host;
  }

  /** A path with one more '/' is still a well-formed, plain path. */
  lemma SlashedPath(path: string)
    requires Plain(path) && Avoids(path, {'?', '#'})
    requires path == [] || path[0] == '/'
    ensures Plain(path + "/") && Avoids(path + "/", {'?', '#'})
    ensures (path + "/")[0] == '/'
    ensures RStrip(path + "/", '/') == RStrip(path, '/')
  {
    assert Plain("/") && Avoids("/", {'?', '#'});
    PlainConcat(path, "/");
    AvoidsConcat(path, "/", {'?', '#'});
    SlashedRStrip(path);
  }

  lemma SlashedRStrip(path: string)
    ensures RStrip(path + "/", '/') == RStrip(path, '/')
  {
    var slashed := path + "/";
    assert slashed[..|slashed| - 1] == path;
  }

  /** A trailing slash on the path plays no part in the normalized form. */
  lemma NormalizeIgnoresTrailingSlash(scheme: string, host: string, path: string, tail: string)
    requires IsScheme(scheme) && Plain(scheme) && Plain(host) && Plain(path) && Plain(tail)
    requires Avoids(host, {'/', '?', '#'})
    requires path == [] || path[0] == '/'
    requires Avoids(path, {'?', '#'})
    requires IsTail(tail)
    ensures NormalizedUrl(scheme + "://" + host + (path + "/") + tail)
         == NormalizedUrl(scheme + "://" + host + path + tail)
  {
    SlashedPath(path);
    NormalizedUrlParts(scheme, host, path + "/", tail);
    NormalizedUrlParts(scheme, host, path, tail);
  }

  // ---------------------------------------------------------------------------
  // Targets

  datatype TargetStatus = Pending | Completed | Failed

  /** The string each status is stored as. */
  function StatusValue(s: TargetStatus): string {
    match s
    case Pending => "pending"
    case Completed => "completed"
    case Failed => "failed"
  }

  /** `TargetStatus(value)`: the status stored as `v`, if any. */
  function StatusFromValue(v: string): (r: Option<TargetStatus>)
    ensures r.Some? ==> StatusValue(r.value) == v
    ensures r.None? <==> v != "pending" && v != "completed" && v != "failed"
  {
    if v == "pending" then Some(Pending)
    else if v == "completed" then Some(Completed)
    else if v == "failed" then Some(Failed)
    else None
  }

  /** Every status decodes from the string it is stored as. */
  lemma StatusValueRoundTrip(s: TargetStatus)
    ensures StatusFromValue(StatusValue(s)) == Some(s)
  {
  }

  datatype Target = Target(
    id: string,
    name: string,
    homepageUrl: Option<string>,
    producthuntUrl: Option<string>,
    status: TargetStatus,
    discoveredAt: Option<string>,
    completedAt: Option<string>,
    failedAt: Option<string>,
    failureReason: Option<string>,
    extractionAttempts: int,
    source: string,
    tagline: Option<string>,
    description: Option<string>,
    votesCount: int,
    reviewsCount: int,
    reviewsRating: Option<real>,
    topics: seq<string>,
    makers: seq<Maker>,
    slug: Option<string>,
    createdAt: Option<string>,
    featuredAt: Option<string>,
    thumbnailUrl: Option<string>)

  /** The key a homepage URL occupies in the URL index ("" when there is none). */
  function HomepageKey(h: Option<string>): string {
    if Truthy(h) then NormalizedUrl(h.value) else ""
  }

  /** The key `add_target` looks up: the normalized homepage URL, when there is one. */
  method HomepageKeyOf(h: Option<string>) returns (key: string)
    ensures key == HomepageKey(h)
  {
    key := "";
    if Truthy(h) {
      key := NormalizeUrl(h.value);
    }
  }

  /** The index after `t` is added: its key points at it, when it has one. */
  function AddToIndex(index: map<string, string>, t: Target): map<string, string> {
    var key := HomepageKey(t.homepageUrl);
    if key != "" then index[key := t.id] else index
  }

  /** `ids` lists the keys of `targets` once each, and every target is stored under its own id. */
  ghost predicate Listed(ids: seq<string>, targets: map<string, Target>) {
    && Distinct(ids)
    && (forall id :: id in ids <==> id in targets)
    && (forall id :: id in targets ==> targets[id].id == id)
  }

  lemma ListedAfterAdd(ids: seq<string>, targets: map<string, Target>, t: Target)
    requires Listed(ids, targets) && t.id !in targets
    ensures Listed(ids + [t.id], targets[t.id := t])
  {
    var ids2 := ids + [t.id];
    DistinctAppend(ids, t.id);
    forall id
      ensures id in ids2 <==> id in targets[t.id := t]
    {
      if id in ids {
        var k :| 0 <= k < |ids| && ids[k] == id;
        assert ids2[k] == id;
      }
      if id in ids2 && id != t.id {
        var k :| 0 <= k < |ids2| && ids2[k] == id;
        assert k < |ids| && ids[k] == id;
      }
      if id == t.id {
        assert ids2[|ids|] == id;
      }
    }
  }

  lemma ListedAfterUpdate(ids: seq<string>, targets: map<string, Target>, id: string, t: Target)
    requires Listed(ids, targets) && id in targets && t.id == id
    ensures Listed(ids, targets[id := t])
  {
  }

  /**
   * `index` maps exactly the non-empty keys (under `key`) of the homepages in `targets`
   * to the ids holding them.
   */
  ghost predicate Indexed(targets: map<string, Target>, index: map<string, string>, key: Option<string> -> string) {
    && (forall u :: u in index ==>
          u != "" && index[u] in targets && key(targets[index[u]].homepageUrl) == u)
    && (forall id :: id in targets && key(targets[id].homepageUrl) != "" ==>
          key(targets[id].homepageUrl) in index && index[key(targets[id].homepageUrl)] == id)
  }

  /** Updating a target without touching its homepage keeps the index exact. */
  lemma IndexedAfterUpdate(targets: map<string, Target>, index: map<string, string>,
                           key: Option<string> -> string, id: string, t: Target)
    requires Indexed(targets, index, key)
    requires id in targets && t.homepageUrl == targets[id].homepageUrl
    ensures Indexed(targets[id := t], index, key)
  {
    var t2 := targets[id := t];
    forall x | x in t2
      ensures t2[x].homepageUrl == targets[x].homepageUrl
    {
    }
  }

  /** Rewriting targets without touching their ids or homepages keeps both the listing and the index. */
  lemma SameHomepagesKeepIndex(ids: seq<string>, t1: map<string, Target>, t2: map<string, Target>,
                               index: map<string, string>, key: Option<string> -> string)
    requires Listed(ids, t1) && Indexed(t1, index, key)
    requires t2.Keys == t1.Keys
    requires forall x :: x in t2 ==> t2[x].id == t1[x].id && t2[x].homepageUrl == t1[x].homepageUrl
    ensures Listed(ids, t2) && Indexed(t2, index, key)
  {
  }

  /** Adding a target whose id and key are both new keeps the index exact. */
  lemma IndexedAfterAdd(targets: map<string, Target>, index: map<string, string>,
                        key: Option<string> -> string, t: Target)
    requires Indexed(targets, index, key)
    requires t.id !in targets
    requires key(t.homepageUrl) == "" || key(t.homepageUrl) !in index
    ensures Indexed(targets[t.id := t],
                    if key(t.homepageUrl) != "" then index[key(t.homepageUrl) := t.id] else index, key)
  {
    var t2 := targets[t.id := t];
    var k := key(t.homepageUrl);
    var i2 := if k != "" then index[k := t.id] else index;
    forall u | u in i2
      ensures u != "" && i2[u] in t2 && key(t2[i2[u]].homepageUrl) == u
    {
      if u != k || k == "" {
        assert i2[u] == index[u] && index[u] in targets;
      }
    }
    forall id | id in t2 && key(t2[id].homepageUrl) != ""
      ensures key(t2[id].homepageUrl) in i2 && i2[key(t2[id].homepageUrl)] == id
    {
      if id != t.id {
        assert t2[id] == targets[id];
        assert key(targets[id].homepageUrl) in index;
      }
    }
  }

  /** Number of targets among `ids` with status `st` (counted from the right). */
  function CountStatus(ids: seq<string>, targets: map<string, Target>, st: TargetStatus): (n: nat)
    requires forall id :: id in ids ==> id in targets
    ensures n <= |ids|
  {
    if ids == [] then 0
    else
      var init := ids[..|ids| - 1];
      CountStatus(init, targets, st) + (if targets[ids[|ids| - 1]].status == st then 1 else 0)
  }

  /** Number of targets among `ids` without a homepage URL. */
  function CountNoHomepage(ids: seq<string>, targets: map<string, Target>): (n: nat)
    requires forall id :: id in ids ==> id in targets
    ensures n <= |ids|
  {
    if ids == [] then 0
    else
      var init := ids[..|ids| - 1];
      CountNoHomepage(init, targets) + (if Truthy(targets[ids[|ids| - 1]].homepageUrl) then 0 else 1)
  }

  /** Every target has exactly one of the three statuses. */
  lemma {:induction false} StatusCountsPartition(ids: seq<string>, targets: map<string, Target>)
    requires forall id :: id in ids ==> id in targets
    ensures CountStatus(ids, targets, Pending) + CountStatus(ids, targets, Completed)
          + CountStatus(ids, targets, Failed) == |ids|
  {
    if ids != [] {
      StatusCountsPartition(ids[..|ids| - 1], targets);
    }
  }

  /** Counting over `ids` only looks at the targets `ids` names. */
  lemma {:induction false} CountStatusFrame(ids: seq<string>, t1: map<string, Target>, t2: map<string, Target>, st: TargetStatus)
    requires forall id :: id in ids ==> id in t1 && id in t2 && t1[id].status == t2[id].status
    ensures CountStatus(ids, t1, st) == CountStatus(ids, t2, st)
  {
    if ids != [] {
      CountStatusFrame(ids[..|ids| - 1], t1, t2, st);
    }
  }

  /** `t` after `reset_failed`: pending again, with no failure reason. */
  function Reset(t: Target): (r: Target)
    ensures r.status == Pending && r.failureReason == None
  {
    t.(status := Pending, failureReason := None)
  }

  /** `t` as `reset_all_failed` leaves it: reset when it had failed, untouched otherwise. */
  function ResetIfFailed(t: Target): (r: Target)
    ensures r.status != Failed
    ensures t.status == Failed ==> r.status == Pending && r.failureReason == None
    ensures t.status != Failed ==> r == t
  {
    if t.status == Failed then Reset(t) else t
  }

  /** After the first `k` ids: those targets are as `ResetIfFailed` leaves them, the rest untouched. */
  predicate ResetUpTo(ids: seq<string>, k: nat, targets: map<string, Target>, updated: map<string, Target>)
    requires k <= |ids|
  {
    updated.Keys == targets.Keys &&
    forall id :: id in updated ==>
      updated[id] == (if id in ids[..k] then ResetIfFailed(targets[id]) else targets[id])
  }

  /** One step of the `reset_all_failed` loop keeps `ResetUpTo` and adds one to the right count. */
  lemma ResetStep(ids: seq<string>, i: nat, targets: map<string, Target>, updated: map<string, Target>)
    requires Distinct(ids) && i < |ids|
    requires forall id :: id in targets <==> id in ids
    requires ResetUpTo(ids, i, targets, updated)
    ensures ids[i] in updated && updated[ids[i]] == targets[ids[i]]
    ensures updated[ids[i]].status == Failed ==> ResetUpTo(ids, i + 1, targets, updated[ids[i] := Reset(updated[ids[i]])])
    ensures updated[ids[i]].status != Failed ==> ResetUpTo(ids, i + 1, targets, updated)
    ensures CountStatus(ids[..i + 1], targets, Failed)
         == CountStatus(ids[..i], targets, Failed) + (if targets[ids[i]].status == Failed then 1 else 0)
  {
    var id := ids[i];
    assert ids[..i + 1][..i] == ids[..i];
    assert ids[..i + 1] == ids[..i] + [id];
    assert id !in ids[..i] by {
      forall k | 0 <= k < i
        ensures ids[..i][k] != id
      {
        assert ids[k] != ids[i];
      }
    }
  }

  /** The loop of `reset_all_failed`: walks `ids`, resetting each failed target. */
  method ResetEachFailed(ids: seq<string>, targets: map<string, Target>)
    returns (updated: map<string, Target>, count: nat)
    requires Distinct(ids)
    requires forall id :: id in targets <==> id in ids
    ensures updated.Keys == targets.Keys
    ensures forall id :: id in updated ==> updated[id] == ResetIfFailed(targets[id])
    ensures count == CountStatus(ids, targets, Failed)
  {
    count := 0;
    updated := targets;
    for i := 0 to |ids|
      invariant ResetUpTo(ids, i, targets, updated)
      invariant count == CountStatus(ids[..i], targets, Failed)
    {
      ResetStep(ids, i, targets, updated);
      var t := updated[ids[i]];
      if t.status == Failed {
        updated := updated[ids[i] := Reset(t)];
        count := count + 1;
      }
    }
    assert ids[..|ids|] == ids;
  }

  datatype TargetStats = TargetStats(total: int, pending: int, completed: int, failed: int, noHomepage: int)

  /** The target list, `TargetManager`; its JSONL file is not part of this model. */
  class TargetManager {
    /** The keys of `_targets`, in insertion order. */
    var ids: seq<string>
    /** `_targets`: target id -> target. */
    var targets: map<string, Target>
    /** `_url_index`: normalized homepage URL -> target id. */
    var urlIndex: map<string, string>

    ghost predicate Valid()
      reads this
    {
      && Listed(ids, targets)
      && Indexed(targets, urlIndex, HomepageKey)
    }

    /** An empty list (the JSONL file does not exist). */
    constructor ()
      ensures Valid()
      ensures ids == [] && targets == map[] && urlIndex == map[]
    {
      ids := [];
      targets := map[];
      urlIndex := map[];
    }

    /** No two stored targets share a non-empty normalized homepage URL. */
    lemma UrlKeysDistinct(a: string, b: string)
      requires Valid()
      requires a in targets && b in targets && a != b
      requires HomepageKey(targets[a].homepageUrl) != ""
      ensures HomepageKey(targets[a].homepageUrl) != HomepageKey(targets[b].homepageUrl)
    {
    }

    /** `is_url_known`: some stored target's homepage normalizes like `url`. */
    method IsUrlKnown(url: string) returns (known: bool)
      requires Valid()
      ensures known == (url != "" && NormalizedUrl(url) in urlIndex)
      ensures known <==> url != "" && NormalizedUrl(url) != ""
                         && exists id :: id in targets && HomepageKey(targets[id].homepageUrl) == NormalizedUrl(url)
    {
      if url == "" {
        return false;
      }
      var normalized := NormalizeUrl(url);
      known := normalized in urlIndex;
      if known {
        assert HomepageKey(targets[urlIndex[normalized]].homepageUrl) == normalized;
      }
    }

    /** `is_id_known`. */
    predicate IsIdKnown(id: string)
      reads this
      requires Valid()
      ensures IsIdKnown(id) <==> id in ids
    {
      id in targets
    }

    /** `get_target`. */
    function GetTarget(id: string): (r: Option<Target>)
      reads this
      requires Valid()
      ensures r.Some? <==> id in ids
      ensures r.Some? ==> r.value.id == id
    {
      if id in targets then Some(targets[id]) else None
    }

    /**
     * `add_target`: refuses a target whose id, or whose non-empty normalized homepage URL,
     * is already known; otherwise stores and indexes it.
     */
    method AddTarget(t: Target) returns (added: bool)
      requires Valid()
      modifies this
      ensures Valid()
      ensures added == (t.id !in old(targets) && !(HomepageKey(t.homepageUrl) != "" && HomepageKey(t.homepageUrl) in old(urlIndex)))
      ensures added ==> ids == old(ids) + [t.id] && targets == old(targets)[t.id := t]
      ensures added ==> urlIndex == AddToIndex(old(urlIndex), t)
      ensures !added ==> ids == old(ids) && targets == old(targets) && urlIndex == old(urlIndex)
    {
      if t.id in targets {
        return false;
      }
      var key := HomepageKeyOf(t.homepageUrl);
      if key != "" && key in urlIndex {
        return false;
      }
      IndexedAfterAdd(targets, urlIndex, HomepageKey, t);
      ListedAfterAdd(ids, targets, t);
      ids := ids + [t.id];
      targets := targets[t.id := t];
      urlIndex := AddToIndex(urlIndex, t);
      added := true;
    }

    /** `mark_completed`. */
    method MarkCompleted(id: string, now: string) returns (found: bool)
      requires Valid()
      modifies this
      ensures Valid() && ids == old(ids) && urlIndex == old(urlIndex)
      ensures found == (id in old(targets))
      ensures found ==> targets == old(targets)[id := old(targets)[id].(
                status := Completed, completedAt := Some(now),
                extractionAttempts := old(targets)[id].extractionAttempts + 1)]
      ensures !found ==> targets == old(targets)
    {
      if id !in targets {
        return false;
      }
      var t := targets[id];
      var updated := t.(status := Completed, completedAt := Some(now),
                                  extractionAttempts := t.extractionAttempts + 1);
      IndexedAfterUpdate(targets, urlIndex, HomepageKey, id, updated);
      targets := targets[id := updated];
      found := true;
    }

    /** `mark_failed`. */
    method MarkFailed(id: string, reason: Option<string>, now: string) returns (found: bool)
      requires Valid()
      modifies this
      ensures Valid() && ids == old(ids) && urlIndex == old(urlIndex)
      ensures found == (id in old(targets))
      ensures found ==> targets == old(targets)[id := old(targets)[id].(
                status := Failed, failedAt := Some(now), failureReason := reason,
                extractionAttempts := old(targets)[id].extractionAttempts + 1)]
      ensures !found ==> targets == old(targets)
    {
      if id !in targets {
        return false;
      }
      var t := targets[id];
      var updated := t.(status := Failed, failedAt := Some(now), failureReason := reason,
                                  extractionAttempts := t.extractionAttempts + 1);
      IndexedAfterUpdate(targets, urlIndex, HomepageKey, id, updated);
      targets := targets[id := updated];
      found := true;
    }

    /** `reset_failed`: any known target, failed or not, becomes pending with no failure reason. */
    method ResetFailed(id: string) returns (found: bool)
      requires Valid()
      modifies this
      ensures Valid() && ids == old(ids) && urlIndex == old(urlIndex)
      ensures found == (id in old(targets))
      ensures found ==> targets == old(targets)[id := Reset(old(targets)[id])]
      ensures !found ==> targets == old(targets)
    {
      if id !in targets {
        return false;
      }
      IndexedAfterUpdate(targets, urlIndex, HomepageKey, id, Reset(targets[id]));
      targets := targets[id := Reset(targets[id])];
      found := true;
    }

    /** `reset_all_failed`: returns how many targets had failed; each of them is pending again. */
    method ResetAllFailed() returns (count: nat)
      requires Valid()
      modifies this
      ensures Valid() && ids == old(ids) && urlIndex == old(urlIndex)
      ensures count == CountStatus(old(ids), old(targets), Failed)
      ensures targets.Keys == old(targets).Keys
      ensures forall id :: id in targets ==> targets[id] == ResetIfFailed(old(targets)[id])
    {
      var updated;
      updated, count := ResetEachFailed(ids, targets);
      SameHomepagesKeepIndex(ids, targets, updated, urlIndex, HomepageKey);
      targets := updated;
    }

    /** `get_stats`: one pass over the targets, counting each status and the missing homepages. */
    method GetStats() returns (stats: TargetStats)
      requires Valid()
      ensures stats.total == |targets|
      ensures stats.pending == CountStatus(ids, targets, Pending)
      ensures stats.completed == CountStatus(ids, targets, Completed)
      ensures stats.failed == CountStatus(ids, targets, Failed)
      ensures stats.noHomepage == CountNoHomepage(ids, targets)
      ensures stats.pending + stats.completed + stats.failed == stats.total
    {
      var pending, completed, failed, noHomepage := 0, 0, 0, 0;
      for i := 0 to |ids|
        invariant pending == CountStatus(ids[..i], targets, Pending)
        invariant completed == CountStatus(ids[..i], targets, Completed)
        invariant failed == CountStatus(ids[..i], targets, Failed)
        invariant noHomepage == CountNoHomepage(ids[..i], targets)
      {
        assert ids[..i + 1][..i] == ids[..i];
        var t := targets[ids[i]];
        if t.status == Pending {
          pending := pending + 1;
        } else if t.status == Completed {
          completed := completed + 1;
        } else if t.status == Failed {
          failed := failed + 1;
        }
        if !Truthy(t.homepageUrl) {
          noHomepage := noHomepage + 1;
        }
      }
      assert ids[..|ids|] == ids;
      StatusCountsPartition(ids, targets);
      DistinctLength(ids, targets.Keys);
      stats := TargetStats(|targets|, pending, completed, failed, noHomepage);
    }
  }
}

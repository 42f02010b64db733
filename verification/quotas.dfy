/** The resource quota check: which batches are let through. */
module Quotas {
  import opened ResourceLists

  const QUOTA_KEYS: set<string> := {"limits.cpu", "limits.memory", "requests.cpu", "requests.memory"}

  /** The quotas of a namespace as the API server reports them. */
  datatype QuotaStatus = QuotaStatus(hard: ResourceList, used: ResourceList)
  datatype Listing = ListingFails | Quotas(quotas: seq<QuotaStatus>)

  /** The object a listing returns; the check deletes keys from its maps in place. */
  class ResourceQuota {
    var hard: ResourceList
    var used: ResourceList

    constructor (status: QuotaStatus)
      ensures hard == status.hard && used == status.used
    {
      hard, used := status.hard, status.used;
    }
  }

  function Sanitized(m: ResourceList): ResourceList {
    map k | k in m && k in QUOTA_KEYS :: m[k]
  }

  method SanitizeRQ(rq: ResourceQuota)
    modifies rq
    ensures rq.hard == Sanitized(old(rq.hard)) && rq.used == Sanitized(old(rq.used))
  {
    var hard := DeleteOthers(rq.hard);
    var used := DeleteOthers(rq.used);
    rq.hard, rq.used := hard, used;
  }

  method DeleteOthers(list: ResourceList) returns (r: ResourceList)
    ensures r == Sanitized(list)
  {
    r := list;
    var todo := list.Keys;
    while todo != {}
      invariant todo <= list.Keys
      invariant forall k :: k in r <==> k in list && (k in todo || k in QUOTA_KEYS)
      invariant forall k :: k in r ==> r[k] == list[k]
      decreases |todo|
    {
      var key :| key in todo;
      if key !in QUOTA_KEYS { r := r - {key}; }
      todo := todo - {key};
    }
  }

  /** Limits as a quota counts them. */
  function Translated(m: ResourceList): ResourceList {
    var cpu: ResourceList := if "cpu" in m then map["limits.cpu" := m["cpu"]] else map[];
    if "memory" in m then cpu["limits.memory" := m["memory"]] else cpu
  }

  /** What a resource is called where quotas limit it. */
  predicate LimitedAs(resource: string, limit: string) {
    (resource == "cpu" && limit == "limits.cpu") || (resource == "memory" && limit == "limits.memory")
  }

  /** Looked up under its limit a resource has the quantity it had, present or not; and nothing else is in the result.
      */
  method TranslateResourcesToQuotaResources(resources: ResourceList) returns (r: ResourceList)
    ensures forall resource, limit :: LimitedAs(resource, limit) ==>
              (limit in r <==> resource in resources) && Get(r, limit) == Get(resources, resource)
    ensures forall limit :: limit in r ==> exists resource :: LimitedAs(resource, limit)
  {
    r := map[];
    if "cpu" in resources { r := r["limits.cpu" := resources["cpu"]]; }
    if "memory" in resources { r := r["limits.memory" := resources["memory"]]; }
    assert LimitedAs("cpu", "limits.cpu") && LimitedAs("memory", "limits.memory");
  }

  /** Those lookups leave one list only. */
  lemma {:induction false} IsTranslated(resources: ResourceList, r: ResourceList)
    requires forall resource, limit :: LimitedAs(resource, limit) ==>
               (limit in r <==> resource in resources) && Get(r, limit) == Get(resources, resource)
    requires forall limit :: limit in r ==> exists resource :: LimitedAs(resource, limit)
    ensures r == Translated(resources)
  {
    assert LimitedAs("cpu", "limits.cpu") && LimitedAs("memory", "limits.memory");
    forall limit | limit in r ensures limit in Translated(resources) && r[limit] == Translated(resources)[limit] {
      var resource :| LimitedAs(resource, limit);
      assert Get(r, limit) == Get(resources, resource);
    }
    forall limit | limit in Translated(resources) ensures limit in r {}
  }

  /** A quota leaves room for a need: no key of it, or of the need, is overdrawn; entries that are missing count as
      zero. A quota with nothing but other keys is no obstacle. */
  ghost predicate Fits(q: QuotaStatus, need: ResourceList) {
    var hard, used, want := Sanitized(q.hard), Sanitized(q.used), Translated(need);
    (hard == map[] && used == map[]) ||
    forall k :: k in hard || k in used || k in want ==> Get(hard, k) - Get(used, k) - Get(want, k) >= 0
  }

  ghost function Status(rq: ResourceQuota): QuotaStatus
    reads rq
  {
    QuotaStatus(rq.hard, rq.used)
  }

  /** One quota of the list: it is sanitized, and does not fit, or does. */
  method CheckOne(rq: ResourceQuota, need: ResourceList) returns (fits: bool)
    modifies rq
    ensures rq.hard == Sanitized(old(rq.hard)) && rq.used == Sanitized(old(rq.used))
    ensures fits <==> Fits(old(Status(rq)), need)
  {
    ghost var q := Status(rq);
    SanitizeRQ(rq);
    EmptyFits(q, need);
    if Sanitized(q.hard) != map[] || Sanitized(q.used) != map[] { FitsByDifference(q, need); }
    hide Sanitized, Translated, Minus, Fits, LimitedAs;
    if |rq.hard| == 0 && |rq.used| == 0 { return true; }
    var leftovers := Subtract(rq.hard, rq.used);
    var want := TranslateResourcesToQuotaResources(need);
    IsTranslated(need, want);
    var checklimits := Subtract(leftovers, want);
    var negative := IsNegative(checklimits);
    assert |negative| > 0 ==> negative[0] in negative;
    return |negative| == 0;
  }

  lemma {:induction false} EmptyFits(q: QuotaStatus, need: ResourceList)
    ensures |Sanitized(q.hard)| == 0 && |Sanitized(q.used)| == 0 ==> Fits(q, need)
  {
  }

  lemma {:induction false} FitsByDifference(q: QuotaStatus, need: ResourceList)
    requires Sanitized(q.hard) != map[] || Sanitized(q.used) != map[]
    ensures var diff := Minus(Minus(Sanitized(q.hard), Sanitized(q.used)), Translated(need));
            Fits(q, need) <==> forall k :: k in diff ==> diff[k] >= 0
  {
    var hard, used, want := Sanitized(q.hard), Sanitized(q.used), Translated(need);
    var diff := Minus(Minus(hard, used), want);
    hide Sanitized, Translated;
    assert forall k :: k in diff <==> k in hard || k in used || k in want;
    assert forall k :: k in diff ==> diff[k] == Get(hard, k) - Get(used, k) - Get(want, k);
  }

  ghost function Statuses(rql: seq<ResourceQuota>): (s: seq<QuotaStatus>)
    reads set q | q in rql
    ensures |s| == |rql| && forall i :: 0 <= i < |rql| ==> s[i] == Status(rql[i])
  {
    if rql == [] then [] else [Status(rql[0])] + Statuses(rql[1..])
  }

  function SanitizedStatus(q: QuotaStatus): QuotaStatus {
    QuotaStatus(Sanitized(q.hard), Sanitized(q.used))
  }

  ghost predicate AllFit(qs: seq<QuotaStatus>, need: ResourceList) {
    forall i :: 0 <= i < |qs| ==> Fits(qs[i], need)
  }

  lemma {:induction false} Misfit(qs: seq<QuotaStatus>, n: nat, need: ResourceList)
    requires n < |qs| && !Fits(qs[n], need) && forall i :: 0 <= i < n ==> Fits(qs[i], need)
    ensures !AllFit(qs, need) && forall i :: 0 <= i < |qs| ==> (AllFit(qs[..i], need) <==> i <= n)
  {
    hide Fits;
    forall i | n < i < |qs| ensures !AllFit(qs[..i], need) { assert qs[..i][n] == qs[n]; }
  }

  lemma {:induction false} NoMisfit(qs: seq<QuotaStatus>, need: ResourceList)
    requires forall i :: 0 <= i < |qs| ==> Fits(qs[i], need)
    ensures AllFit(qs, need) && forall i :: 0 <= i < |qs| ==> AllFit(qs[..i], need)
  {
    hide Fits;
  }

  /** Allowed if and only if every quota fits. The quotas looked at, up to the first that does not fit, are left
      sanitized, the others as they were. */
  method IsAllowed(rql: seq<ResourceQuota>, need: ResourceList) returns (allowed: bool)
    requires forall i, j :: 0 <= i < j < |rql| ==> rql[i] != rql[j]
    modifies set q | q in rql
    ensures allowed <==> AllFit(old(Statuses(rql)), need)
    ensures forall i :: 0 <= i < |rql| ==>
              var before := old(Statuses(rql));
              Status(rql[i]) == if AllFit(before[..i], need) then SanitizedStatus(before[i]) else before[i]
  {
    ghost var before := Statuses(rql);
    hide Fits, Sanitized, AllFit;
    for n := 0 to |rql|
      invariant forall i :: 0 <= i < n ==> Fits(before[i], need) && Status(rql[i]) == SanitizedStatus(before[i])
      invariant forall i :: n <= i < |rql| ==> Status(rql[i]) == before[i]
    {
      var fits := CheckOne(rql[n], need);
      if !fits {
        Misfit(before, n, need);
        return false;
      }
    }
    NoMisfit(before, need);
    return true;
  }

  /** What the whole check lets through: a namespace without quotas, a need with a negative or no positive part, and
      what fits every quota. */
  ghost predicate Admits(listing: Listing, need: ResourceList) {
    listing.Quotas? &&
    (listing.quotas == [] ||
     (exists k :: k in need && need[k] < 0) ||
     (forall k :: k in need ==> need[k] == 0) ||
     AllFit(listing.quotas, need))
  }

  /** Some of the four keys of CPU and memory. */
  predicate CountsResources(m: ResourceList) {
    "limits.cpu" in m || "limits.memory" in m || "requests.cpu" in m || "requests.memory" in m
  }

  /** What a quota asks, told for the four keys it can have: each in turn, whether the quota has it or not, with CPU and
      memory needed counted as limits and nothing as requests. Without any of the four a quota asks nothing. */
  lemma {:induction false} FitsIff(q: QuotaStatus, need: ResourceList)
    ensures Fits(q, need) <==>
            (!CountsResources(q.hard) && !CountsResources(q.used)) ||
            (Get(q.used, "limits.cpu") + Get(need, "cpu") <= Get(q.hard, "limits.cpu") &&
             Get(q.used, "limits.memory") + Get(need, "memory") <= Get(q.hard, "limits.memory") &&
             Get(q.used, "requests.cpu") <= Get(q.hard, "requests.cpu") &&
             Get(q.used, "requests.memory") <= Get(q.hard, "requests.memory"))
  {
    OnlyQuotaKeys(q.hard);
    OnlyQuotaKeys(q.used);
    TranslatedKeys(need);
    RoomIff(Sanitized(q.hard), Sanitized(q.used), Translated(need));
    hide Sanitized, Translated, CountsResources, Get;
  }

  lemma {:induction false} RoomIff(hard: ResourceList, used: ResourceList, want: ResourceList)
    requires forall k :: k in hard || k in used || k in want ==> k in QUOTA_KEYS
    ensures (forall k :: k in hard || k in used || k in want ==> Get(hard, k) - Get(used, k) - Get(want, k) >= 0) <==>
            (Get(used, "limits.cpu") + Get(want, "limits.cpu") <= Get(hard, "limits.cpu") &&
             Get(used, "limits.memory") + Get(want, "limits.memory") <= Get(hard, "limits.memory") &&
             Get(used, "requests.cpu") + Get(want, "requests.cpu") <= Get(hard, "requests.cpu") &&
             Get(used, "requests.memory") + Get(want, "requests.memory") <= Get(hard, "requests.memory"))
  {
    assert forall k :: k !in hard && k !in used && k !in want ==> Get(hard, k) - Get(used, k) - Get(want, k) == 0;
    hide Get;
  }

  lemma {:induction false} OnlyQuotaKeys(m: ResourceList)
    ensures forall k :: k in Sanitized(m) <==> k in m && k in QUOTA_KEYS
    ensures Sanitized(m) == map[] <==> !CountsResources(m)
    ensures Get(Sanitized(m), "limits.cpu") == Get(m, "limits.cpu")
    ensures Get(Sanitized(m), "limits.memory") == Get(m, "limits.memory")
    ensures Get(Sanitized(m), "requests.cpu") == Get(m, "requests.cpu")
    ensures Get(Sanitized(m), "requests.memory") == Get(m, "requests.memory")
  {
  }

  lemma {:induction false} TranslatedKeys(need: ResourceList)
    ensures forall k :: k in Translated(need) ==> k in QUOTA_KEYS
    ensures Get(Translated(need), "limits.cpu") == Get(need, "cpu")
    ensures Get(Translated(need), "limits.memory") == Get(need, "memory")
    ensures Get(Translated(need), "requests.cpu") == 0 && Get(Translated(need), "requests.memory") == 0
  {
  }

  /** What is refused: a need that is nowhere negative and somewhere positive, and for which some quota has no room. */
  lemma {:induction false} RefusedIff(listing: Listing, need: ResourceList)
    requires listing.Quotas?
    ensures !Admits(listing, need) <==>
            (forall k :: k in need ==> need[k] >= 0) && (exists k :: k in need && need[k] > 0) &&
            exists i :: 0 <= i < |listing.quotas| && !Fits(listing.quotas[i], need)
  {
    hide Fits;
    if (exists k :: k in need && need[k] > 0) && forall k :: k in need ==> need[k] >= 0 {
      var k :| k in need && need[k] > 0;
    }
  }

  method ResourceQuotaCheck(listing: Listing, need: ResourceList) returns (allowed: bool, failed: bool)
    ensures allowed <==> Admits(listing, need)
    ensures failed <==> listing.ListingFails?
  {
    if listing.ListingFails? { return false, true; }
    if |listing.quotas| == 0 { return true, false; }
    var negative := IsNegative(need);
    if |negative| > 0 {
      assert negative[0] in negative;
      return true, false;
    }
    assert forall k :: k in need && need[k] < 0 ==> k in negative;
    var zero := IsZero(need);
    if zero { return true, false; }
    var rql: seq<ResourceQuota> := [];
    for n := 0 to |listing.quotas|
      invariant |rql| == n && forall i, j :: 0 <= i < j < n ==> rql[i] != rql[j]
      invariant forall i :: 0 <= i < n ==> fresh(rql[i]) && Status(rql[i]) == listing.quotas[i]
    {
      var rq := new ResourceQuota(listing.quotas[n]);
      rql := rql + [rq];
    }
    assert Statuses(rql) == listing.quotas;
    allowed := IsAllowed(rql, need);
    return allowed, false;
  }
}

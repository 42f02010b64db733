/** Admission and scaling together: a batch that passed the quota check does not outgrow the quota while it is scaled,
    in whatever order its scalers take their steps. */
module QuotaSafety {
  import opened Items
  import opened DenyList
  import opened ScalerMachine
  import opened ScalerSafety
  import opened System
  import opened Bounds
  import opened Interleaving
  import opened StepBounds
  import opened ResourceLists
  import opened Quotas

  // ----- the batch

  /** A batch as admitted: each item with its count then and its target, by key. */
  type Batch = map<Key, ScalingInfo>

  function High(item: ScalingInfo): int { Max(item.spec, item.desired) }
  function Low(item: ScalingInfo): int { Min(item.spec, item.desired) }

  /** Between admission and target. */
  function AdmittedHull(b: Batch): Hull {
    map k | k in b :: Span(Low(b[k]), High(b[k]))
  }

  /** Not above the larger of the two; -1 is how the code says that there is no target. */
  function Ceiling(b: Batch): Hull {
    map k | k in b :: Span(-1, High(b[k]))
  }

  /** An event asks for no more of the batch than was admitted: no target, and no item to reconcile, above the larger of
      admission and target. It may ask for less, restart failed items, opt them out or delete them. */
  ghost predicate NoMore(ev: Event, b: Batch) {
    match ev
    case Turn(_, _) => true
    case Outside(e) => e.Retarget? && e.key in b ==> In(e.target, -1, High(b[e.key]))
    case ReconcileNs(_, item) => CountsIn(item, Ceiling(b))
    case ReconcileItem(_, item) => CountsIn(item, Ceiling(b))
  }

  ghost predicate NeverMore(evs: seq<Event>, b: Batch) {
    forall i :: 0 <= i < |evs| ==> Possible(evs[i]) && NoMore(evs[i], b)
  }

  ghost predicate Sensible(b: Batch) {
    forall k :: k in b ==> High(b[k]) >= 0
  }

  /** Whatever is on the list of a batch key may be restarted. */
  lemma {:induction false} NoMoreIsAllowed(sys: Sys, ev: Event, b: Batch)
    requires Hulled(sys, Ceiling(b)) && NoMore(ev, b) && Sensible(b)
    ensures Allowed(sys, ev, Ceiling(b))
  {
    hide ScalersHulled, AllOwn, WellKeyed, High;
    if ev.ReconcileItem? {
      var k := KeyOf(ev.item);
      if k in sys.sh.deny {
        ListedKey(sys, Ceiling(b), k);
        if k in b { assert KeyWithin(sys.sh, k, -1, High(b[k])); }
      }
    }
  }

  lemma {:induction false} BatchHulled(sys: Sys, evs: seq<Event>, b: Batch)
    requires Hulled(sys, Ceiling(b)) && NeverMore(evs, b) && Sensible(b)
    ensures Hulled(Run(sys, evs), Ceiling(b))
  {
    hide Hulled, After, NoMore, Possible, Ceiling, Sensible;
    if evs != [] {
      var before, ev := evs[..|evs| - 1], evs[|evs| - 1];
      assert forall i :: 0 <= i < |before| ==> before[i] == evs[i];
      BatchHulled(sys, before, b);
      NoMoreIsAllowed(Run(sys, before), ev, b);
      HulledAfter(Run(sys, before), ev, Ceiling(b));
    }
  }

  // ----- from counts to resources

  function SpecNow(sh: Shared, k: Key): int {
    if k in sh.cluster then sh.cluster[k].spec else 0
  }

  /** What the batch has grown by since admission, of one resource; a deleted object has shrunk to nothing. */
  function Grown(sh: Shared, items: seq<ScalingInfo>, r: string): int {
    if items == [] then 0
    else
      var item := items[|items| - 1];
      Grown(sh, items[..|items| - 1], r) + (SpecNow(sh, KeyOf(item)) - item.spec) * Get(item.limits, r)
  }

  /** What the batch grows by at most when its counts rise up to `tops`. */
  function GrowthUpTo(items: seq<ScalingInfo>, tops: map<Key, int>, r: string): int
    requires forall i :: 0 <= i < |items| ==> KeyOf(items[i]) in tops
  {
    if items == [] then 0
    else
      var item := items[|items| - 1];
      GrowthUpTo(items[..|items| - 1], tops, r) + Pos(tops[KeyOf(item)] - item.spec) * Get(item.limits, r)
  }

  lemma {:induction false} GrownStaysBelow(sh: Shared, items: seq<ScalingInfo>, tops: map<Key, int>, r: string)
    requires Sane(items) && forall i :: 0 <= i < |items| ==> KeyOf(items[i]) in tops
    requires forall i :: 0 <= i < |items| ==> SpecNow(sh, KeyOf(items[i])) <= tops[KeyOf(items[i])]
    ensures Grown(sh, items, r) <= GrowthUpTo(items, tops, r)
  {
    if items != [] {
      var n := |items| - 1;
      var before, item := items[..n], items[n];
      assert forall i :: 0 <= i < n ==> before[i] == items[i];
      GrownStaysBelow(sh, before, tops, r);
      TimesMonotone(SpecNow(sh, KeyOf(item)) - item.spec, Pos(tops[KeyOf(item)] - item.spec), Get(item.limits, r));
    }
  }

  lemma {:induction false} TimesMonotone(a: int, b: int, l: int)
    requires a <= b && l >= 0
    ensures a * l <= b * l
  {
  }

  /** Up to admission and target, that is the growth. */
  lemma {:induction false} GrowthToTargets(items: seq<ScalingInfo>, tops: map<Key, int>, r: string)
    requires forall i :: 0 <= i < |items| ==> KeyOf(items[i]) in tops && tops[KeyOf(items[i])] == High(items[i])
    ensures GrowthUpTo(items, tops, r) == Growth(items, r)
  {
    if items != [] {
      var n := |items| - 1;
      assert forall i :: 0 <= i < n ==> items[..n][i] == items[i];
      GrowthToTargets(items[..n], tops, r);
    }
  }

  lemma {:induction false} RoomInQuota(q: QuotaStatus, need: ResourceList, r: string, qk: string)
    requires Fits(q, need) && LimitedAs(r, qk) && (Sanitized(q.hard) != map[] || Sanitized(q.used) != map[])
    ensures Get(q.used, qk) + Get(need, r) <= Get(q.hard, qk)
  {
    var hard, used, want := Sanitized(q.hard), Sanitized(q.used), Translated(need);
    assert Get(want, qk) == Get(need, r) && Get(hard, qk) == Get(q.hard, qk) && Get(used, qk) == Get(q.used, qk);
    assert qk in hard || qk in used || qk in want || Get(hard, qk) - Get(used, qk) - Get(want, qk) == 0;
  }

  // ----- a batch nobody is scaling yet

  /** The batch at admission: items with keys of their own, described as they are, not on the list and with no scaler at
      work. Scalers that have ended do not count. */
  ghost predicate JustAdmitted(sys: Sys, items: seq<ScalingInfo>) {
    UniqueKeys(items) && Sane(items) && WellKeyed(sys.sh.deny) && AllOwn(sys.scalers) &&
    (forall i :: 0 <= i < |items| ==>
      var k := KeyOf(items[i]);
      Named(k) && k !in sys.sh.deny && (k in sys.sh.cluster ==> sys.sh.cluster[k].spec == items[i].spec)) &&
    forall id :: Active(sys.scalers, id) ==> !HasKey(items, KeyOf(sys.scalers[id].item))
  }

  lemma {:induction false} EntriesOf(items: seq<ScalingInfo>, k: Key)
    requires UniqueKeys(items) && k in AsMap(items)
    ensures exists i :: 0 <= i < |items| && KeyOf(items[i]) == k && AsMap(items)[k] == items[i]
  {
    AsMapIsTheList(items);
    var i :| 0 <= i < |items| && KeyOf(items[i]) == k;
    assert AsMap(items)[k] == items[i];
  }

  lemma {:induction false} AdmittedIsHulled(sys: Sys, items: seq<ScalingInfo>)
    requires JustAdmitted(sys, items)
    ensures Hulled(sys, AdmittedHull(AsMap(items))) && Hulled(sys, Ceiling(AsMap(items))) && Sensible(AsMap(items))
  {
    hide OwnItems, ScalerWithin, AsMap, WellKeyed, AllOwn;
    var b := AsMap(items);
    forall k | k in b
      ensures Named(k) && KeyWithin(sys.sh, k, Low(b[k]), High(b[k])) && KeyWithin(sys.sh, k, -1, High(b[k])) &&
              High(b[k]) >= 0
    {
      EntriesOf(items, k);
      var i :| 0 <= i < |items| && KeyOf(items[i]) == k && b[k] == items[i];
      assert Countable(items[i]);
    }
    forall id | Active(sys.scalers, id) ensures KeyOf(sys.scalers[id].item) !in b {
      AsMapKeys(items, KeyOf(sys.scalers[id].item));
    }
    hide Low, High, KeyWithin;
  }

  lemma {:induction false} BatchGrowthBounded(sys: Sys, items: seq<ScalingInfo>, evs: seq<Event>, r: string)
    requires JustAdmitted(sys, items) && NeverMore(evs, AsMap(items))
    ensures Grown(Run(sys, evs).sh, items, r) <= Growth(items, r)
  {
    hide Run, AsMap, NeverMore, Hulled, Sensible, ScalersHulled, AllOwn, WellKeyed;
    var b := AsMap(items);
    AdmittedIsHulled(sys, items);
    BatchHulled(sys, evs, b);
    var sh := Run(sys, evs).sh;
    var tops := map k | k in b :: High(b[k]);
    forall i | 0 <= i < |items|
      ensures KeyOf(items[i]) in tops && tops[KeyOf(items[i])] == High(items[i]) &&
              SpecNow(sh, KeyOf(items[i])) <= High(items[i])
    {
      AsMapEntry(items, i);
      assert Countable(items[i]);
      BelowCeiling(Run(sys, evs), b, KeyOf(items[i]));
    }
    GrownStaysBelow(sh, items, tops, r);
    GrowthToTargets(items, tops, r);
  }

  lemma {:induction false} BelowCeiling(sys: Sys, b: Batch, k: Key)
    requires Hulled(sys, Ceiling(b)) && k in b && High(b[k]) >= 0
    ensures SpecNow(sys.sh, k) <= High(b[k])
  {
    hide ScalersHulled, AllOwn, WellKeyed, High;
    var h := Ceiling(b);
    assert h[k] == Span(-1, High(b[k]));
    assert KeyWithin(sys.sh, k, h[k].lo, h[k].hi);
  }

  /** Quota safety over whole runs. A batch is admitted by isAllowed; from then on its scalers, step and rapid, the
      scalers of other items, reconciles that ask for no more and the environment interleave in any order. In every
      state, for every quota not emptied by sanitizing and each limit it covers, used at admission plus what the batch
      has grown by since stays at or below hard. */
  lemma {:induction false} AdmittedBatchFitsQuota(
      sys: Sys, items: seq<ScalingInfo>, evs: seq<Event>, quotas: seq<QuotaStatus>, n: nat, r: string, qk: string)
    requires JustAdmitted(sys, items) && NeverMore(evs, AsMap(items))
    requires AllFit(quotas, Demand(items))
    requires n < |quotas| && LimitedAs(r, qk) &&
             (Sanitized(quotas[n].hard) != map[] || Sanitized(quotas[n].used) != map[])
    ensures Get(quotas[n].used, qk) + Grown(Run(sys, evs).sh, items, r) <= Get(quotas[n].hard, qk)
  {
    BatchGrowthBounded(sys, items, evs, r);
    DemandCoversGrowth(items, r);
    RoomInQuota(quotas[n], Demand(items), r, qk);
  }

  /** The same for the whole check, shortcuts included: what it admits does not grow at all, or fits. */
  lemma {:induction false} AdmittedBatchIsSafe(
      sys: Sys, items: seq<ScalingInfo>, evs: seq<Event>, listing: Listing, n: nat, r: string, qk: string)
    requires JustAdmitted(sys, items) && NeverMore(evs, AsMap(items))
    requires Admits(listing, Demand(items))
    requires n < |listing.quotas| && LimitedAs(r, qk)
    requires Sanitized(listing.quotas[n].hard) != map[] || Sanitized(listing.quotas[n].used) != map[]
    ensures Grown(Run(sys, evs).sh, items, r) <= 0 ||
            Get(listing.quotas[n].used, qk) + Grown(Run(sys, evs).sh, items, r) <= Get(listing.quotas[n].hard, qk)
  {
    hide Run, AsMap, NeverMore, JustAdmitted, Grown;
    SaneBatch(sys, items);
    var need := Demand(items);
    forall k | k in need ensures need[k] >= 0 { DemandCoversGrowth(items, k); }
    BatchGrowthBounded(sys, items, evs, r);
    DemandCoversGrowth(items, r);
    if AllFit(listing.quotas, need) {
      RoomInQuota(listing.quotas[n], need, r, qk);
    } else {
      assert Get(need, r) == 0;
    }
  }

  lemma {:induction false} SaneBatch(sys: Sys, items: seq<ScalingInfo>)
    requires JustAdmitted(sys, items)
    ensures Sane(items)
  {
  }

  // ----- a batch with items already being scaled

  /** Counts that may still rise to `tops`. Where a step scaler is at work alone, the one `steppers` names, that is one
      replica on from the count now or the target the list has, as `StepHeld` says; elsewhere, whatever scalers at work
      and list still have. */
  ghost predicate AdmittedWithTops(sys: Sys, items: seq<ScalingInfo>, tops: map<Key, int>, steppers: map<Key, nat>) {
    UniqueKeys(items) && Sane(items) &&
    forall i :: 0 <= i < |items| ==>
      var k := KeyOf(items[i]);
      k in tops && High(items[i]) <= tops[k] &&
      if k in steppers then StepHeld(sys, steppers[k], k, tops[k]) else Hulled(sys, UpTo(k, tops[k]))
  }

  /** Nobody asks for more than the tops, and step scalers at work are spared a second one beside them. */
  ghost predicate NeverAbove(sys: Sys, evs: seq<Event>, tops: map<Key, int>, steppers: map<Key, nat>) {
    forall k :: k in tops ==>
      (forall i :: 0 <= i < |evs| ==> Possible(evs[i]) && AsksUpTo(evs[i], k, tops[k])) &&
      (k in steppers ==> SparesAll(sys, evs, steppers[k], k))
  }

  /** What the batch overshoots its growth by when counts rise to the tops. */
  function Overshoot(items: seq<ScalingInfo>, tops: map<Key, int>, r: string): int
    requires forall i :: 0 <= i < |items| ==> KeyOf(items[i]) in tops
  {
    if items == [] then 0
    else
      var item := items[|items| - 1];
      Overshoot(items[..|items| - 1], tops, r) + Pos(tops[KeyOf(item)] - High(item)) * Get(item.limits, r)
  }

  lemma {:induction false} OvershootIsTheRest(items: seq<ScalingInfo>, tops: map<Key, int>, r: string)
    requires forall i :: 0 <= i < |items| ==> KeyOf(items[i]) in tops && High(items[i]) <= tops[KeyOf(items[i])]
    ensures GrowthUpTo(items, tops, r) == Growth(items, r) + Overshoot(items, tops, r)
  {
    if items != [] {
      var n := |items| - 1;
      var item := items[n];
      assert forall i :: 0 <= i < n ==> items[..n][i] == items[i];
      OvershootIsTheRest(items[..n], tops, r);
      Distribute(Pos(item.desired - item.spec), tops[KeyOf(item)] - High(item), Get(item.limits, r));
      assert Pos(tops[KeyOf(item)] - item.spec) == Pos(item.desired - item.spec) + (tops[KeyOf(item)] - High(item));
    }
  }

  lemma {:induction false} Distribute(a: int, b: int, l: int)
    ensures (a + b) * l == a * l + b * l
  {
  }

  lemma {:induction false} SpecBelowTop(
      sys: Sys, items: seq<ScalingInfo>, tops: map<Key, int>, steppers: map<Key, nat>, evs: seq<Event>, i: nat)
    requires AdmittedWithTops(sys, items, tops, steppers) && NeverAbove(sys, evs, tops, steppers) && i < |items|
    ensures SpecNow(Run(sys, evs).sh, KeyOf(items[i])) <= tops[KeyOf(items[i])]
  {
    hide Run, StepHeld, Possible, AsksUpTo, SparesAll, Hulled;
    var k := KeyOf(items[i]);
    assert tops[k] >= 0 by { assert Countable(items[i]); }
    if k in steppers {
      KeptUpToRun(sys, steppers[k], k, tops[k], evs);
    } else {
      forall j | 0 <= j < |evs| ensures NoMore(evs[j], One(k, tops[k])) { AskedOfOne(evs[j], k, tops[k]); }
      assert Ceiling(One(k, tops[k])) == UpTo(k, tops[k]);
      BatchHulled(sys, evs, One(k, tops[k]));
      BelowCeiling(Run(sys, evs), One(k, tops[k]), k);
    }
  }

  /** A batch of the object of key k alone, to be scaled to `top`. */
  function One(k: Key, top: int): Batch {
    map[k := BLANK.(ns := k.ns, name := k.name, spec := -1, desired := top)]
  }

  lemma {:induction false} AskedOfOne(ev: Event, k: Key, top: int)
    requires AsksUpTo(ev, k, top) && top >= 0
    ensures NoMore(ev, One(k, top))
  {
    assert Ceiling(One(k, top)) == UpTo(k, top);
  }

  /** A batch may hold items already being scaled to other targets, which its admission only redirects. Then the quota
      can be overshot, by no more than what those scalers could still reach beyond the batch's own targets: one replica
      where a step scaler is at work, the old target where it is a rapid one. */
  lemma {:induction false} ListedBatchOvershoot(
      sys: Sys, items: seq<ScalingInfo>, tops: map<Key, int>, steppers: map<Key, nat>, evs: seq<Event>,
      quotas: seq<QuotaStatus>, n: nat, r: string, qk: string)
    requires AdmittedWithTops(sys, items, tops, steppers) && NeverAbove(sys, evs, tops, steppers)
    requires AllFit(quotas, Demand(items))
    requires n < |quotas| && LimitedAs(r, qk) &&
             (Sanitized(quotas[n].hard) != map[] || Sanitized(quotas[n].used) != map[])
    ensures Get(quotas[n].used, qk) + Grown(Run(sys, evs).sh, items, r) <=
            Get(quotas[n].hard, qk) + Overshoot(items, tops, r)
  {
    hide Run, NeverAbove, AllFit, StepHeld, Hulled;
    var sys' := Run(sys, evs);
    forall i | 0 <= i < |items| ensures SpecNow(sys'.sh, KeyOf(items[i])) <= tops[KeyOf(items[i])] {
      SpecBelowTop(sys, items, tops, steppers, evs, i);
    }
    GrownStaysBelow(sys'.sh, items, tops, r);
    OvershootIsTheRest(items, tops, r);
    DemandCoversGrowth(items, r);
    OneFits(quotas, n, Demand(items));
    RoomInQuota(quotas[n], Demand(items), r, qk);
  }

  lemma {:induction false} OneFits(quotas: seq<QuotaStatus>, n: nat, need: ResourceList)
    requires AllFit(quotas, need) && n < |quotas|
    ensures Fits(quotas[n], need)
  {
  }
}

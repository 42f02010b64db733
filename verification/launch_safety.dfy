/** From the listing to the end: the batches a reconcile launches are those its quota check was about, and stay within
    the quota. */
module LaunchSafety {
  import opened Items
  import opened DenyList
  import opened ScalerMachine
  import System
  import States
  import opened ResourceLists
  import opened Quotas
  import opened Targets
  import Grouping
  import opened Processes
  import opened Decisions
  import opened Reconcilers
  import opened Bounds
  import opened Listings
  import opened QuotaSafety

  /** Counts, limits and annotations that make sense. */
  ghost predicate Reasonable(listing: seq<ScalingInfo>, atoi: Atoi) {
    forall i :: 0 <= i < |listing| ==>
      0 <= listing[i].spec < 0x8000_0000 && (forall r :: r in listing[i].limits ==> listing[i].limits[r] >= 0) &&
      Cuttable(listing[i].annotations) &&
      forall key :: key in listing[i].annotations && atoi(listing[i].annotations[key]).Some? ==>
        0 <= atoi(listing[i].annotations[key]).value < 0x8000_0000
  }

  /** The keys of a batch. */
  function KeysOf(items: seq<ScalingInfo>): set<Key> {
    set i | 0 <= i < |items| :: KeyOf(items[i])
  }

  ghost predicate AllNamed(listing: seq<ScalingInfo>) {
    forall i :: 0 <= i < |listing| ==> Named(KeyOf(listing[i]))
  }

  // ----- where the items of a batch come from

  lemma {:induction false} CountedTwice(s: seq<ScalingInfo>, i: nat, j: nat)
    requires i < j < |s| && s[i] == s[j]
    ensures multiset(s)[s[i]] >= 2
  {
    assert s == s[..i] + [s[i]] + s[i + 1..j] + [s[j]] + s[j + 1..];
  }

  lemma {:induction false} CountedOnce(s: seq<ScalingInfo>, x: ScalingInfo)
    requires OnceIn(s, KeyOf(x))
    ensures multiset(s)[x] <= 1
  {
    if s != [] {
      var n := |s| - 1;
      CountedOnce(s[..n], x);
      assert s == s[..n] + [s[n]];
      assert s[n] == x ==> x !in s[..n];
    }
  }

  lemma {:induction false} SameKeySameItem(s: seq<ScalingInfo>, x: ScalingInfo, y: ScalingInfo)
    requires OnceIn(s, KeyOf(x)) && x in s && y in s && KeyOf(x) == KeyOf(y)
    ensures x == y
  {
    var i :| 0 <= i < |s| && s[i] == x;
    var j :| 0 <= j < |s| && s[j] == y;
    assert i == j;
  }

  /** A key the listing has once its group has once. */
  lemma {:induction false} OnceInGroup(groups: Groups, listing: seq<ScalingInfo>, ns: string, k: Key)
    requires IsPartition(groups, listing) && ns in groups && OnceIn(listing, k)
    ensures OnceIn(groups[ns], k)
  {
    hide IsPartition;
    var g := groups[ns];
    forall i, j | 0 <= i < j < |g| && KeyOf(g[i]) == k ensures KeyOf(g[j]) != k {
      InListing(groups, listing, ns, i);
      InListing(groups, listing, ns, j);
      if KeyOf(g[j]) == k {
        hide OnceIn;
        SameKeySameItem(listing, g[i], g[j]);
        CountedTwice(g, i, j);
        CountedOnce(listing, g[i]);
      }
    }
  }

  /** An item to scale comes from an item of the group: same key, spec, limits and annotations, another target. */
  ghost predicate ComesOf(item: ScalingInfo, given: ScalingInfo) {
    KeyOf(item) == KeyOf(given) && item.spec == given.spec && item.limits == given.limits &&
    item.annotations == given.annotations
  }

  ghost predicate Sources(from: seq<nat>, items: seq<ScalingInfo>, given: seq<ScalingInfo>) {
    |from| == |items| && Ascending(from, |given|) && forall i :: 0 <= i < |items| ==> ComesOf(items[i], given[from[i]])
  }

  lemma {:induction false} ResolvedComesOf(items: seq<ScalingInfo>, state: State, s: Surroundings, i: nat)
    requires s.css.Some? && i < |items|
    ensures ComesOf(Resolve(items, state, s)[i], items[i])
  {
    States.ResolutionFacts(items[i], state, s.css.value, s.definitions);
  }

  lemma {:induction false} ItemsComeOf(given: seq<ScalingInfo>, state: State, s: Surroundings, items: seq<ScalingInfo>)
    requires s.css.Some? && ItemsToScale(given, state, s, items)
    ensures exists from :: Sources(from, items, given)
  {
    hide Resolve, States.Resolved, Possible, Selected, ComesOf;
    var resolved := Resolve(given, state, s);
    CountsKnown(given, state, s, items);
    var rs :| CountsFor(resolved, s.atoi, rs) && items == Selected(resolved, rs);
    CountsLength(resolved, s.atoi, rs);
    SelectionIsASubsequence(resolved, rs);
    var from :| Origins(from, resolved, rs, items);
    forall i | 0 <= i < |items| ensures ComesOf(items[i], given[from[i]]) {
      ResolvedComesOf(given, state, s, from[i]);
      RetargetedComesOf(items[i], resolved[from[i]], given[from[i]], rs[from[i]]);
    }
    assert Sources(from, items, given);
  }

  lemma {:induction false} RetargetedComesOf(item: ScalingInfo, origin: ScalingInfo, given: ScalingInfo, r: Option<int>)
    requires ComesFrom(item, origin, r) && ComesOf(origin, given)
    ensures ComesOf(item, given)
  {
  }

  /** The targets of the items to scale are counts their annotations set. */
  lemma {:induction false} TargetsAreCounts(given: seq<ScalingInfo>, state: State, s: Surroundings,
      items: seq<ScalingInfo>, i: nat)
    requires s.css.Some? && ItemsToScale(given, state, s, items) && i < |items|
    requires forall j :: 0 <= j < |given| ==> Cuttable(given[j].annotations)
    ensures Cuttable(items[i].annotations)
    ensures exists key :: Sets(key, items[i].annotations, s.atoi, items[i].state, items[i].desired)
  {
    hide States.Resolved, Possible, Selected, Cuttable, Sets;
    var resolved := Resolve(given, state, s);
    CountsKnown(given, state, s, items);
    var rs :| CountsFor(resolved, s.atoi, rs) && items == Selected(resolved, rs);
    TargetsComeFromAnnotations(given, state, s.css.value, s.definitions, s.atoi, resolved, rs);
    assert items[i] in Selected(resolved, rs);
  }

  lemma {:induction false} SetsCount(key: string, item: ScalingInfo, atoi: Atoi, n: int)
    requires Cuttable(item.annotations) && Sets(key, item.annotations, atoi, item.state, n)
    requires forall k :: k in item.annotations && atoi(item.annotations[k]).Some? ==>
               0 <= atoi(item.annotations[k]).value < 0x8000_0000
    ensures 0 <= n < 0x8000_0000
  {
  }

  // ----- the batch of a namespace

  ghost predicate BatchOf(pr: Preparation, listing: seq<ScalingInfo>, s: Surroundings, ns: string,
      items: seq<ScalingInfo>)
    requires s.css.Some?
  {
    IsPartition(pr.groups, listing) && ns in pr.groups && s.stateOf(ns).Some? &&
    ItemsToScale(pr.groups[ns], s.stateOf(ns).value, s, items) && Admits(s.quotasOf(ns), Demand(items))
  }

  /** What a live reconcile launches has passed the quota check of its namespace. */
  lemma {:induction false} LaunchedIsAdmitted(pr: Preparation, listing: seq<ScalingInfo>, s: Surroundings, ns: string)
    requires s.css.Some? && !s.dryRun && IsPartition(pr.groups, listing) && EntriesRight(pr.groups, s, pr.overall.info)
    requires ns in ToBeScaled(pr.overall)
    ensures BatchOf(pr, listing, s, ns, pr.overall.info[ns].items)
  {
    hide Admits, Demand, ItemsToScale, IsPartition;
    assert EntryRight(ns, pr.groups[ns], s, pr.overall.info[ns]);
  }

  /** Each item of the batch and the item of the listing it comes from. */
  lemma {:induction false} BatchOrigin(
      pr: Preparation, listing: seq<ScalingInfo>, s: Surroundings, ns: string, items: seq<ScalingInfo>, i: nat)
    requires s.css.Some? && BatchOf(pr, listing, s, ns, items) && i < |items|
    ensures exists given :: given in pr.groups[ns] && given in listing && ComesOf(items[i], given)
    ensures items[i].ns == ns
  {
    hide Admits, Demand, ItemsToScale, IsPartition, Sources, ComesOf;
    var g := pr.groups[ns];
    ItemsComeOf(g, s.stateOf(ns).value, s, items);
    var from :| Sources(from, items, g);
    assert 0 <= from[i] < |g| && ComesOf(items[i], g[from[i]]) by { SourceAt(from, items, g, i); }
    InListing(pr.groups, listing, ns, from[i]);
    SameCounts(items[i], g[from[i]]);
  }

  lemma {:induction false} SourceAt(from: seq<nat>, items: seq<ScalingInfo>, given: seq<ScalingInfo>, i: nat)
    requires Sources(from, items, given) && i < |items|
    ensures |from| == |items| && from[i] < |given| && ComesOf(items[i], given[from[i]])
  {
    hide ComesOf;
  }

  lemma {:induction false} BatchItem(
      pr: Preparation, listing: seq<ScalingInfo>, s: Surroundings, ns: string, items: seq<ScalingInfo>, i: nat)
    requires s.css.Some? && BatchOf(pr, listing, s, ns, items) && i < |items| && Reasonable(pr.groups[ns], s.atoi)
    ensures Countable(items[i]) && forall r :: r in items[i].limits ==> items[i].limits[r] >= 0
  {
    hide Admits, Demand, ItemsToScale, IsPartition, Cuttable, ComesOf;
    var g, state := pr.groups[ns], s.stateOf(ns).value;
    forall j | 0 <= j < |g| ensures Cuttable(g[j].annotations) { ReasonableItem(g, s.atoi, g[j]); }
    BatchOrigin(pr, listing, s, ns, items, i);
    var given :| given in g && given in listing && ComesOf(items[i], given);
    ReasonableItem(g, s.atoi, given);
    TargetsAreCounts(g, state, s, items, i);
    hide Sets;
    var key :| Sets(key, items[i].annotations, s.atoi, items[i].state, items[i].desired);
    SameCounts(items[i], given);
    SetsCount(key, items[i], s.atoi, items[i].desired);
  }

  lemma {:induction false} SameCounts(item: ScalingInfo, given: ScalingInfo)
    requires ComesOf(item, given)
    ensures item.ns == given.ns && KeyOf(item) == KeyOf(given) && item.spec == given.spec
    ensures item.limits == given.limits && item.annotations == given.annotations
  {
  }

  lemma {:induction false} ReasonableItem(listing: seq<ScalingInfo>, atoi: Atoi, item: ScalingInfo)
    requires Reasonable(listing, atoi) && item in listing
    ensures 0 <= item.spec < 0x8000_0000 && (forall r :: r in item.limits ==> item.limits[r] >= 0)
    ensures Cuttable(item.annotations)
    ensures forall key :: key in item.annotations && atoi(item.annotations[key]).Some? ==>
              0 <= atoi(item.annotations[key]).value < 0x8000_0000
  {
    hide Cuttable;
  }

  lemma {:induction false} BatchIsUnique(
      pr: Preparation, listing: seq<ScalingInfo>, s: Surroundings, ns: string, items: seq<ScalingInfo>)
    requires s.css.Some? && BatchOf(pr, listing, s, ns, items)
    requires forall k :: k in KeysOf(items) ==> OnceIn(listing, k)
    ensures UniqueKeys(items)
  {
    hide Admits, Demand, ItemsToScale, IsPartition;
    var g := pr.groups[ns];
    ItemsComeOf(g, s.stateOf(ns).value, s, items);
    var from :| Sources(from, items, g);
    forall i, j | 0 <= i < j < |items| ensures KeyOf(items[i]) != KeyOf(items[j]) {
      assert KeyOf(items[i]) in KeysOf(items);
      OnceInGroup(pr.groups, listing, ns, KeyOf(items[i]));
      assert KeyOf(g[from[i]]) == KeyOf(items[i]) && from[i] < from[j];
    }
  }

  lemma {:induction false} MatchesAt(sys: System.Sys, listing: seq<ScalingInfo>, items: seq<ScalingInfo>, i: nat)
    requires Matches(sys, listing, KeysOf(items)) && i < |items|
    ensures Free(sys, listing, KeyOf(items[i]))
  {
    hide Free;
    assert KeyOf(items[i]) in KeysOf(items);
  }

  /** A batch whose items the listing describes as they are, and nobody scales, is just admitted; whatever becomes of
      the rest of the listing. */
  lemma {:induction false} BatchIsJustAdmitted(
      pr: Preparation, listing: seq<ScalingInfo>, s: Surroundings, ns: string, items: seq<ScalingInfo>, sys: System.Sys)
    requires s.css.Some? && BatchOf(pr, listing, s, ns, items) && Reasonable(pr.groups[ns], s.atoi)
    requires Matches(sys, listing, KeysOf(items))
    ensures JustAdmitted(sys, items)
  {
    hide BatchOf, Reasonable, System.WellKeyed, System.AllOwn, UniqueKeys, OnceIn;
    forall k | k in KeysOf(items) ensures OnceIn(listing, k) { assert Free(sys, listing, k); }
    BatchIsUnique(pr, listing, s, ns, items);
    forall i | 0 <= i < |items|
      ensures var k := KeyOf(items[i]);
              Countable(items[i]) && (forall r :: r in items[i].limits ==> items[i].limits[r] >= 0) &&
              Named(k) && k !in sys.sh.deny && (k in sys.sh.cluster ==> sys.sh.cluster[k].spec == items[i].spec)
    {
      BatchItem(pr, listing, s, ns, items, i);
      BatchOrigin(pr, listing, s, ns, items, i);
      MatchesAt(sys, listing, items, i);
      var given :| given in listing && ComesOf(items[i], given);
      var j :| 0 <= j < |listing| && listing[j] == given;
    }
    forall id | System.Active(sys.scalers, id) ensures !HasKey(items, KeyOf(sys.scalers[id].item)) {
      if i :| 0 <= i < |items| && KeyOf(items[i]) == KeyOf(sys.scalers[id].item) { MatchesAt(sys, listing, items, i); }
    }
  }

  // ----- the launches ask for no more

  lemma {:induction false} AmongAllItems(order: seq<string>, info: map<string, NamespaceScaleInfo>, x: ScalingInfo)
    requires x in AllItems(order, info)
    ensures exists ns :: ns in order && ns in info && x in info[ns].items
  {
    if order != [] {
      var n := |order| - 1;
      if x in AllItems(order[..n], info) {
        AmongAllItems(order[..n], info, x);
        var ns :| ns in order[..n] && ns in info && x in info[ns].items;
        assert ns in order;
      } else {
        assert order[n] in order;
      }
    }
  }

  /** Reconciling an item of any launched batch asks for no more of a batch than was admitted: a key belongs to one
      namespace, and occurs in its batch once. */
  lemma {:induction false} OwnAsksNoMore(
      pr: Preparation, listing: seq<ScalingInfo>, s: Surroundings, ns: string, items: seq<ScalingInfo>,
      ns': string, items': seq<ScalingInfo>, x: ScalingInfo, id: nat)
    requires s.css.Some? && BatchOf(pr, listing, s, ns, items) && UniqueKeys(items) && AllNamed(listing)
    requires Sane(items) && BatchOf(pr, listing, s, ns', items') && x in items' && (ns' == ns ==> items' == items)
    ensures System.Possible(System.ReconcileNs(id, x)) && NoMore(System.ReconcileNs(id, x), AsMap(items))
  {
    hide BatchOf, UniqueKeys, AsMap;
    var i :| 0 <= i < |items'| && items'[i] == x;
    BatchOrigin(pr, listing, s, ns', items', i);
    var given :| given in listing && ComesOf(x, given);
    var g :| 0 <= g < |listing| && listing[g] == given;
    if KeyOf(x) in AsMap(items) {
      EntriesOf(items, KeyOf(x));
      var j :| 0 <= j < |items| && KeyOf(items[j]) == KeyOf(x) && AsMap(items)[KeyOf(x)] == items[j];
      BatchOrigin(pr, listing, s, ns, items, j);
      assert ns' == ns;
      SameItemOfBatch(items, i, j);
      assert Countable(x);
    }
  }

  lemma {:induction false} SameItemOfBatch(items: seq<ScalingInfo>, i: nat, j: nat)
    requires UniqueKeys(items) && i < |items| && j < |items| && KeyOf(items[i]) == KeyOf(items[j])
    ensures items[i] == items[j]
  {
  }

  /** A launch at some place of the run is a reconcile of an item of a launched batch. */
  lemma {:induction false} OwnAt(log: seq<Entry>, q: nat, i: nat, own: seq<System.Event>)
    requires q <= i < |log| && log[i].Own? && OwnOf(log) == OwnOf(log[..q]) + own
    ensures log[i].ev in own
  {
    OwnGrows(log, q, i);
    OwnGrows(log, i + 1, |log|);
    assert log[..|log|] == log && log[..i + 1][..i] == log[..i];
    var before, here := OwnOf(log[..i]), OwnOf(log[..i + 1]);
    assert here == before + [log[i].ev];
    assert OwnOf(log)[|before|] == log[i].ev && |before| >= |OwnOf(log[..q])|;
    assert own[|before| - |OwnOf(log[..q])|] == log[i].ev;
  }

  lemma {:induction false} OwnGrows(log: seq<Entry>, q: nat, i: nat)
    requires q <= i <= |log|
    ensures OwnOf(log[..q]) <= OwnOf(log[..i])
    decreases i
  {
    if q < i {
      OwnGrows(log, q, i - 1);
      assert log[..i][..i - 1] == log[..i - 1];
    }
  }

  /** Nothing in the run since the decisions asks for more: not the launches, and not the others by assumption. */
  lemma {:induction false} RunAsksNoMore(
      pr: Preparation, listing: seq<ScalingInfo>, s: Surroundings, ns: string,
      log0: seq<Entry>, log: seq<Entry>, i: nat)
    requires s.css.Some? && !s.dryRun && Prepared(pr, listing, s) && InRun(pr, log0, log) && ns in pr.launched
    requires ns in pr.overall.info && UniqueKeys(pr.overall.info[ns].items) && Sane(pr.overall.info[ns].items)
    requires AllNamed(listing) && pr.decided <= i < |log|
    requires log[i].Other? ==> System.Possible(log[i].ev) && NoMore(log[i].ev, AsMap(pr.overall.info[ns].items))
    ensures System.Possible(log[i].ev) && NoMore(log[i].ev, AsMap(pr.overall.info[ns].items))
  {
    hide OwnOf, AllItems, Admits, Demand, ItemsToScale, NoMore, UniqueKeys, Sane, IsPartition, EntriesRight, IsRun,
      DecisionsRight, OneRoundEach, BatchOf, AllRedirects;
    if log[i].Own? {
      OwnAt(log, pr.decided, i, pr.launches);
      var j :| 0 <= j < |pr.launches| && pr.launches[j] == log[i].ev;
      var x := AllItems(pr.launched, pr.overall.info)[j];
      AmongAllItems(pr.launched, pr.overall.info, x);
      var ns' :| ns' in pr.launched && ns' in pr.overall.info && x in pr.overall.info[ns'].items;
      LaunchedAreChosen(pr, listing, s, ns);
      LaunchedAreChosen(pr, listing, s, ns');
      LaunchedIsAdmitted(pr, listing, s, ns);
      LaunchedIsAdmitted(pr, listing, s, ns');
      OwnAsksNoMore(pr, listing, s, ns, pr.overall.info[ns].items, ns', pr.overall.info[ns'].items, x,
          log[i].ev.id);
    }
  }

  lemma {:induction false} LaunchedAreChosen(pr: Preparation, listing: seq<ScalingInfo>, s: Surroundings, ns: string)
    requires s.css.Some? && !s.dryRun && Prepared(pr, listing, s) && ns in pr.launched
    ensures ns in ToBeScaled(pr.overall) && ns in pr.overall.info
  {
    hide IsPartition, EntriesRight, IsRun, DecisionsRight, OneRoundEach, Reconciles;
    var i :| 0 <= i < |pr.launched| && pr.launched[i] == ns;
  }

  lemma {:induction false} RunAppend(sys: System.Sys, a: seq<System.Event>, b: seq<System.Event>)
    ensures System.Run(sys, a + b) == System.Run(System.Run(sys, a), b)
    decreases |b|
  {
    hide System.After;
    if b == [] {
      assert a + b == a;
    } else {
      var n := |b| - 1;
      RunAppend(sys, a, b[..n]);
      assert a + b == (a + b[..n]) + [b[n]];
      System.RunSnoc(sys, a + b[..n], b[n]);
    }
  }

  /** What happens from the decisions on: what the log has up to q, and whatever comes after. */
  function Since(log: seq<Entry>, decided: nat, q: nat, more: seq<System.Event>): seq<System.Event>
    requires decided <= q <= |log|
  {
    Events(log)[decided..q] + more
  }

  lemma {:induction false} SinceIsTheRun(start: System.Sys, log: seq<Entry>, decided: nat, q: nat,
      more: seq<System.Event>)
    requires decided <= q <= |log|
    ensures System.Run(At(start, log, decided), Since(log, decided, q, more)) == System.Run(At(start, log, q), more)
  {
    hide System.Run;
    assert Events(log[..decided]) == Events(log)[..decided];
    assert Events(log[..q]) == Events(log)[..decided] + Events(log)[decided..q];
    RunAppend(start, Events(log)[..decided], Events(log)[decided..q]);
    RunAppend(At(start, log, decided), Events(log)[decided..q], more);
  }

  lemma {:induction false} NeverMoreSince(
      pr: Preparation, listing: seq<ScalingInfo>, s: Surroundings, ns: string,
      log0: seq<Entry>, log: seq<Entry>, q: nat, more: seq<System.Event>)
    requires s.css.Some? && !s.dryRun && Prepared(pr, listing, s) && InRun(pr, log0, log) && ns in pr.launched
    requires ns in pr.overall.info && UniqueKeys(pr.overall.info[ns].items) && Sane(pr.overall.info[ns].items)
    requires AllNamed(listing) && pr.decided <= q <= |log| && NeverMore(more, AsMap(pr.overall.info[ns].items))
    requires forall i :: pr.decided <= i < q && log[i].Other? ==>
               System.Possible(log[i].ev) && NoMore(log[i].ev, AsMap(pr.overall.info[ns].items))
    ensures NeverMore(Since(log, pr.decided, q, more), AsMap(pr.overall.info[ns].items))
  {
    hide Prepared, UniqueKeys, Sane, AllNamed, NoMore, System.Possible, OwnOf, AsMap;
    var evs := Since(log, pr.decided, q, more);
    forall i | 0 <= i < |evs| ensures System.Possible(evs[i]) && NoMore(evs[i], AsMap(pr.overall.info[ns].items)) {
      if i < q - pr.decided {
        assert evs[i] == log[pr.decided + i].ev;
        RunAsksNoMore(pr, listing, s, ns, log0, log, pr.decided + i);
      } else {
        assert evs[i] == more[i - (q - pr.decided)];
      }
    }
  }

  /** From decision to run. A live reconcile decides about a listing; when it has decided, nobody has begun to scale the
      items of the batch it launches in a namespace, and the listing still has them as the cluster does. Other items of
      the listing, in other namespaces or the same, may be in the middle of being scaled. Then the batch stays within
      each quota of its namespace, or has not grown of the resource at all: at every later moment of the reconcile and
      of any run that follows, with its own launches, all scalers and the environment in any order, provided that others
      ask for no more of the batch than was admitted. */
  lemma {:induction false} LaunchedBatchIsSafe(
      pr: Preparation, listing: seq<ScalingInfo>, s: Surroundings, ns: string, start: System.Sys,
      log0: seq<Entry>, log: seq<Entry>, q: nat, more: seq<System.Event>, n: nat, r: string, qk: string)
    requires s.css.Some? && !s.dryRun && Prepared(pr, listing, s) && InRun(pr, log0, log) && ns in pr.launched
    requires pr.decided <= q <= |log| && AllNamed(listing)
    requires ns in pr.groups && Reasonable(pr.groups[ns], s.atoi) && ns in pr.overall.info
    requires Matches(At(start, log, pr.decided), listing, KeysOf(pr.overall.info[ns].items))
    requires NeverMore(more, AsMap(pr.overall.info[ns].items))
    requires forall i :: pr.decided <= i < q && log[i].Other? ==>
               System.Possible(log[i].ev) && NoMore(log[i].ev, AsMap(pr.overall.info[ns].items))
    requires s.quotasOf(ns).Quotas? && n < |s.quotasOf(ns).quotas| && LimitedAs(r, qk)
    requires var quota := s.quotasOf(ns).quotas[n]; Sanitized(quota.hard) != map[] || Sanitized(quota.used) != map[]
    ensures var quota := s.quotasOf(ns).quotas[n];
            var grown := Grown(System.Run(At(start, log, q), more).sh, pr.overall.info[ns].items, r);
            grown <= 0 || Get(quota.used, qk) + grown <= Get(quota.hard, qk)
  {
    hide Prepared, Reasonable, Matches, NoMore, System.Possible, OwnOf, AsMap, NeverMore, InRun, Admits, Demand,
      JustAdmitted, System.Run, Grown, Sanitized, BatchOf, At, AllNamed, KeysOf, UniqueKeys, Sane;
    var items, mid := pr.overall.info[ns].items, At(start, log, pr.decided);
    LaunchedAreChosen(pr, listing, s, ns);
    PreparedBatch(pr, listing, s, ns);
    BatchIsJustAdmitted(pr, listing, s, ns, items, mid);
    JustAdmittedIs(mid, items);
    NeverMoreSince(pr, listing, s, ns, log0, log, q, more);
    SinceIsTheRun(start, log, pr.decided, q, more);
    AdmittedBatchIsSafe(mid, items, Since(log, pr.decided, q, more), s.quotasOf(ns), n, r, qk);
  }

  lemma {:induction false} JustAdmittedIs(sys: System.Sys, items: seq<ScalingInfo>)
    requires JustAdmitted(sys, items)
    ensures UniqueKeys(items) && Sane(items)
  {
  }

  lemma {:induction false} PreparedBatch(pr: Preparation, listing: seq<ScalingInfo>, s: Surroundings, ns: string)
    requires s.css.Some? && !s.dryRun && Prepared(pr, listing, s) && ns in ToBeScaled(pr.overall)
    ensures BatchOf(pr, listing, s, ns, pr.overall.info[ns].items)
    ensures Admits(s.quotasOf(ns), Demand(pr.overall.info[ns].items))
  {
    hide IsPartition, EntriesRight, Admits, Demand, IsRun, DecisionsRight, OneRoundEach, Reconciles,
        ItemsToScale;
    LaunchedIsAdmitted(pr, listing, s, ns);
  }

  // ----- from reading the listing to the decisions

  lemma {:induction false} MatchesOnward(
      start: System.Sys, log: seq<Entry>, q: nat, i: nat, listing: seq<ScalingInfo>, keys: set<Key>)
    requires q <= i <= |log| && Matches(At(start, log, q), listing, keys)
    requires forall j :: q <= j < i ==> KeepsAway(log[j].ev, keys)
    ensures Matches(At(start, log, i), listing, keys)
    decreases i
  {
    hide System.After, Matches, KeepsAway;
    if q < i {
      MatchesOnward(start, log, q, i - 1, listing, keys);
      KeepsMatching(At(start, log, i - 1), log[i - 1].ev, listing, keys);
      assert log[..i][..i - 1] == log[..i - 1];
      assert Events(log[..i]) == Events(log[..i - 1]) + [log[i - 1].ev];
      System.RunSnoc(start, Events(log[..i - 1]), log[i - 1].ev);
    }
  }

  /** What of a listing matches when it is read still does when the decisions about it have been taken, if no other
      reconcile takes up the items in question meanwhile: the decisions' own redirects, of these items or others, do no
      harm. */
  lemma {:induction false} MatchesOnceDecided(
      pr: Preparation, listing: seq<ScalingInfo>, s: Surroundings, start: System.Sys, log0: seq<Entry>, log: seq<Entry>,
      keys: set<Key>)
    requires s.css.Some? && Prepared(pr, listing, s) && InRun(pr, log0, log)
    requires Matches(At(start, log, |log0|), listing, keys)
    requires forall i :: |log0| <= i < pr.decided && log[i].Other? ==> KeepsAway(log[i].ev, keys)
    ensures Matches(At(start, log, pr.decided), listing, keys)
  {
    hide OwnOf, AllRedirects, Matches, IsPartition, EntriesRight, IsRun, DecisionsRight, OneRoundEach,
      Reconciles, AllItems, At;
    AllOnlyRedirects(pr.rounds, pr.views, pr.groups, s);
    assert log[..pr.decided][..|log0|] == log0;
    forall j | |log0| <= j < pr.decided && log[j].Own? ensures KeepsAway(log[j].ev, keys) {
      assert log[..pr.decided][j] == log[j];
      OwnAt(log[..pr.decided], |log0|, j, AllRedirects(pr.views));
    }
    MatchesOnward(start, log, |log0|, pr.decided, listing, keys);
  }
}

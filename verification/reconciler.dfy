/** The reconcilers: what they make of the decisions, while scalers, other reconciles and the environment go on. */
module Reconcilers {
  import opened Items
  import opened DenyList
  import opened Concurrent
  import opened ScalerMachine
  import System
  import opened ResourceLists
  import opened Quotas
  import Targets
  import Grouping
  import Budget
  import opened Processes
  import opened Judgement
  import opened Decisions

  /** The events of reconciling items one after the other, whatever numbers their scalers get. */
  ghost predicate Reconciles(evs: seq<System.Event>, items: seq<ScalingInfo>) {
    |evs| == |items| && forall i :: 0 <= i < |evs| ==> evs[i].ReconcileNs? && evs[i].item == items[i]
  }

  lemma {:induction false} ReconcilesMore(a: seq<System.Event>, x: seq<ScalingInfo>, b: seq<System.Event>,
      y: seq<ScalingInfo>)
    requires Reconciles(a, x) && Reconciles(b, y)
    ensures Reconciles(a + b, x + y)
  {
  }

  /** The items of some namespaces, in order. */
  function AllItems(order: seq<string>, info: map<string, NamespaceScaleInfo>): seq<ScalingInfo> {
    if order == [] then []
    else
      var last := order[|order| - 1];
      AllItems(order[..|order| - 1], info) + if last in info then info[last].items else []
  }

  datatype ItemError = DefinitionsUnread | StateUnread | ClassesUnread | TargetUnknown | QuotasUnread | QuotaViolated

  datatype ItemResult = Unchanged | Rejected(error: ItemError) | Reached(item: ScalingInfo)

  /** ScaleOrStepScale up to the item being on the list; the rest is the scaler's own. */
  method Start(p: Process, item: ScalingInfo)
    requires p.list.Sound() && forall id :: id in p.scalers ==> id < p.next
    modifies p`scalers, p`next, p.list, p.list.backing
    ensures p.list.Sound() && (p.list.backing == old(p.list.backing) || fresh(p.list.backing)) &&
            p.next == old(p.next) + 1
    ensures forall id :: id in p.scalers ==> id < p.next
    ensures p.Now() == System.Launch(old(p.Now()), old(p.next), item)
  {
    hide Fresh, ConcurrentSlice.Contents, ConcurrentSlice.Entries, UniqueKeys;
    p.next := p.next + 1;
    if item.spec == item.desired && !item.failure { return; }
    var listed := item.(isBeingScaled := true);
    assert Marked(listed, listed.failure, listed.failureMessage, listed.desired) == listed;
    p.list.SetScalingItemOnList(listed, listed.failure, listed.failureMessage, listed.desired);
    p.scalers := p.scalers[p.next - 1 := Fresh(item)];
  }

  /** Gives a listed item a new target. */
  method Redirect(p: Process, entry: ScalingInfo, target: int)
    requires p.list.Sound() && Named(KeyOf(entry)) && KeyOf(entry) in p.list.Entries() &&
             p.list.Entries()[KeyOf(entry)] == entry
    modifies p.list, p.list.backing
    ensures p.list.Sound() && (p.list.backing == old(p.list.backing) || fresh(p.list.backing))
    ensures p.Now() == System.Redirect(old(p.Now()), KeyOf(entry), target)
    ensures p.list.Entries() == old(p.list.Entries())[KeyOf(entry) := entry.(desired := target)]
  {
    hide ConcurrentSlice.Contents, ConcurrentSlice.Entries, UniqueKeys;
    p.list.SetScalingItemOnList(entry, entry.failure, entry.failureMessage, target);
    assert Marked(entry, entry.failure, entry.failureMessage, target) == entry.(desired := target);
  }

  /** An item on the list has its new target there, when there is a reason to scale it; and nothing else has changed. */
  ghost predicate TakenOver(
      before: map<Key, ScalingInfo>, after: map<Key, ScalingInfo>, item: ScalingInfo, reason: bool)
  {
    var k := KeyOf(item);
    reason && item.desired != -1 && Named(k) && k in before ==>
      after == before[k := before[k].(desired := item.desired)]
  }

  lemma {:induction false} NothingNew(m: map<Key, ScalingInfo>, item: ScalingInfo)
    ensures KeyOf(item) in m && m[KeyOf(item)].desired == item.desired ==>
              m == m[KeyOf(item) := m[KeyOf(item)].(desired := item.desired)]
  {
  }

  /** What ReconcileNamespace does about an item; looking it up and putting it on the list are one step. */
  method RedirectOrLaunch(p: Process, scalingItem: ScalingInfo)
    requires p.Valid()
    modifies p`scalers, p`next, p.list, p.list.backing
    ensures p.list.Sound() && (p.list.backing == old(p.list.backing) || fresh(p.list.backing))
    ensures forall id :: id in p.scalers ==> id < p.next
    ensures p.Now() == System.After(old(p.Now()), System.ReconcileNs(old(p.next), scalingItem))
    ensures TakenOver(old(p.list.Entries()), p.list.Entries(), scalingItem, scalingItem.spec != scalingItem.desired)
  {
    p.EntriesAreKeyed();
    NothingNew(p.list.Entries(), scalingItem);
    hide ConcurrentSlice.Contents, ConcurrentSlice.Entries, UniqueKeys, System.Launch, System.Redirect, System.Run,
        OwnNumbers;
    if scalingItem.spec == scalingItem.desired || scalingItem.desired == -1 { return; }
    var scalingItemFresh, found := p.list.GetDeploymentInfoFromList(scalingItem);
    if found {
      if scalingItemFresh.desired != scalingItem.desired { Redirect(p, scalingItemFresh, scalingItem.desired); }
      return;
    }
    var failing := p.list.IsDeploymentInFailureState(scalingItem);
    if !failing { Start(p, scalingItem); }
  }

  /** One item of a namespace, after others have had their turn. */
  method ReconcileOne(p: Process, scalingItem: ScalingInfo) returns (ghost own: seq<System.Event>)
    requires p.Valid()
    modifies p`cluster, p`scalers, p`next, p`others, p`log, p.list, p.list.backing
    ensures p.Valid() && (p.list.backing == old(p.list.backing) || fresh(p.list.backing)) && old(p.log) <= p.log
    ensures OwnOf(p.log) == OwnOf(old(p.log)) + own && Reconciles(own, [scalingItem])
    ensures p.log != [] && p.log[|p.log| - 1] == Own(own[0])
    ensures TakenOver(At(p.start, p.log, |p.log| - 1).sh.deny, p.list.Entries(), scalingItem,
                      scalingItem.spec != scalingItem.desired)
  {
    hide ConcurrentSlice.Contents, ConcurrentSlice.Entries, UniqueKeys, System.After, System.Run, OwnNumbers, OwnOf,
      TakenOver;
    p.Elsewhere();
    ghost var before, id, log := p.Now(), p.next, p.log;
    RedirectOrLaunch(p, scalingItem);
    own := [System.ReconcileNs(id, scalingItem)];
    p.Record(before, Own(own[0]));
    assert p.log[..|p.log| - 1] == log;
  }

  method ReconcileNamespace(p: Process, scalingItems: seq<ScalingInfo>) returns (ghost own: seq<System.Event>)
    requires p.Valid()
    modifies p`cluster, p`scalers, p`next, p`others, p`log, p.list, p.list.backing
    ensures p.Valid() && (p.list.backing == old(p.list.backing) || fresh(p.list.backing)) && old(p.log) <= p.log
    ensures OwnOf(p.log) == OwnOf(old(p.log)) + own && Reconciles(own, scalingItems)
  {
    hide ConcurrentSlice.Contents, ConcurrentSlice.Entries, UniqueKeys, System.Run, OwnNumbers, OwnOf, Reconciles;
    own := [];
    NothingToReconcile();
    for i := 0 to |scalingItems|
      invariant p.Valid() && (p.list.backing == old(p.list.backing) || fresh(p.list.backing)) && old(p.log) <= p.log
      invariant OwnOf(p.log) == OwnOf(old(p.log)) + own && Reconciles(own, scalingItems[..i])
    {
      ghost var more := ReconcileOne(p, scalingItems[i]);
      ReconcilesMore(own, scalingItems[..i], more, [scalingItems[i]]);
      assert scalingItems[..i + 1] == scalingItems[..i] + [scalingItems[i]];
      own := own + more;
    }
    assert scalingItems[..|scalingItems|] == scalingItems;
  }

  lemma {:induction false} NothingToReconcile()
    ensures Reconciles([], [])
  {
  }

  /** A single item, from the event of the object itself: everything is read anew, and only what gets past all of it
      reaches the list. */
  method ReconcileScalingItem(p: Process, given: ScalingInfo, definitionsRead: bool, s: Surroundings)
    returns (result: ItemResult, ghost own: seq<System.Event>)
    requires p.Valid() && Targets.Cuttable(given.annotations)
    modifies p`cluster, p`scalers, p`next, p`others, p`log, p.list, p.list.backing
    ensures p.Valid() && (p.list.backing == old(p.list.backing) || fresh(p.list.backing)) && old(p.log) <= p.log
    ensures OwnOf(p.log) == OwnOf(old(p.log)) + own
    ensures result == Rejected(DefinitionsUnread) <==> !definitionsRead
    ensures result == Rejected(StateUnread) <==> definitionsRead && s.stateOf(given.ns).None?
    ensures result == Rejected(ClassesUnread) <==> definitionsRead && s.stateOf(given.ns).Some? && s.css.None?
    ensures definitionsRead && s.stateOf(given.ns).Some? && s.css.Some? ==>
              exists toScale: seq<ScalingInfo> :: ItemsToScale([given], s.stateOf(given.ns).value, s, toScale) &&
                if |toScale| == 0 then result.Unchanged?
                else
                  var item := toScale[0];
                  var there, quotas := item.spec == item.ready == item.desired, s.quotasOf(item.ns);
                  (result.Unchanged? <==> item.desired != -1 && there) &&
                  (result == Rejected(TargetUnknown) <==> item.desired == -1) &&
                  (result == Rejected(QuotasUnread) <==> item.desired != -1 && !there && quotas.ListingFails?) &&
                  (result == Reached(item) <==>
                    item.desired != -1 && !there && Admits(quotas, LimitsNeeded(item)))
    ensures !result.Reached? ==> p.log == old(p.log)
    ensures result.Reached? ==>
              s.css.Some? && s.stateOf(given.ns).Some? &&
              ItemsToScale([given], s.stateOf(given.ns).value, s, [result.item]) && result.item.desired != -1 &&
              Admits(s.quotasOf(result.item.ns), LimitsNeeded(result.item)) &&
              |own| == 1 && own[0].ReconcileItem? && own[0].item == result.item && p.log != [] &&
              p.log[|p.log| - 1] == Own(own[0]) &&
              AimsRight(At(p.start, p.log, |p.log| - 1), p.scalers, own[0].id, result.item) &&
              var m := At(p.start, p.log, |p.log| - 1).sh.deny;
              TakenOver(m, p.list.Entries(), result.item, NotFailing(m, result.item))
  {
    hide ConcurrentSlice.Contents, ConcurrentSlice.Entries, UniqueKeys, ItemsToScale, Admits, LimitsNeeded,
      Targets.Cuttable, System.After, System.Run, OwnNumbers, OwnOf, AimsRight, At, TakenOver, NotFailing;
    own := [];
    result := ReadAndAssess(given, definitionsRead, s);
    if result.Reached? { own := ReachList(p, result.item); }
  }

  /** What is read for a single item, and what comes of it. */
  method ReadAndAssess(given: ScalingInfo, definitionsRead: bool, s: Surroundings) returns (result: ItemResult)
    requires Targets.Cuttable(given.annotations)
    ensures result == Rejected(DefinitionsUnread) <==> !definitionsRead
    ensures result == Rejected(StateUnread) <==> definitionsRead && s.stateOf(given.ns).None?
    ensures result == Rejected(ClassesUnread) <==> definitionsRead && s.stateOf(given.ns).Some? && s.css.None?
    ensures definitionsRead && s.stateOf(given.ns).Some? && s.css.Some? ==>
              exists toScale: seq<ScalingInfo> :: ItemsToScale([given], s.stateOf(given.ns).value, s, toScale) &&
                if |toScale| == 0 then result.Unchanged?
                else
                  var item := toScale[0];
                  var there, quotas := item.spec == item.ready == item.desired, s.quotasOf(item.ns);
                  (result.Unchanged? <==> item.desired != -1 && there) &&
                  (result == Rejected(TargetUnknown) <==> item.desired == -1) &&
                  (result == Rejected(QuotasUnread) <==> item.desired != -1 && !there && quotas.ListingFails?) &&
                  (result == Reached(item) <==>
                    item.desired != -1 && !there && Admits(quotas, LimitsNeeded(item)))
    ensures result.Reached? ==>
              s.css.Some? && s.stateOf(given.ns).Some? &&
              ItemsToScale([given], s.stateOf(given.ns).value, s, [result.item]) && result.item.desired != -1 &&
              !(result.item.ready == result.item.desired && result.item.spec == result.item.desired) &&
              Admits(s.quotasOf(result.item.ns), LimitsNeeded(result.item))
  {
    hide ItemsToScale, Admits, LimitsNeeded;
    if !definitionsRead { return Rejected(DefinitionsUnread); }
    var state := s.stateOf(given.ns);
    if state.None? { return Rejected(StateUnread); }
    if s.css.None? { return Rejected(ClassesUnread); }
    result := Assess(given, state.value, s);
  }

  /** The target of a single item and the quota check, before the list comes in. */
  method Assess(given: ScalingInfo, state: State, s: Surroundings) returns (result: ItemResult)
    requires s.css.Some? && Targets.Cuttable(given.annotations)
    ensures result.Rejected? ==> result.error !in {DefinitionsUnread, StateUnread, ClassesUnread}
    ensures exists toScale: seq<ScalingInfo> :: ItemsToScale([given], state, s, toScale) &&
              if |toScale| == 0 then result.Unchanged?
              else
                var item := toScale[0];
                var there, quotas := item.spec == item.ready == item.desired, s.quotasOf(item.ns);
                (result.Unchanged? <==> item.desired != -1 && there) &&
                (result == Rejected(TargetUnknown) <==> item.desired == -1) &&
                (result == Rejected(QuotasUnread) <==> item.desired != -1 && !there && quotas.ListingFails?) &&
                (result == Reached(item) <==> item.desired != -1 && !there && Admits(quotas, LimitsNeeded(item)))
    ensures result.Reached? ==>
              ItemsToScale([given], state, s, [result.item]) && result.item.desired != -1 &&
              !(result.item.ready == result.item.desired && result.item.spec == result.item.desired) &&
              Admits(s.quotasOf(result.item.ns), LimitsNeeded(result.item))
  {
    hide ItemsToScale, Admits;
    var items := Determine([given], state, s);
    if |items| == 0 { return Unchanged; }
    AtMostOne(given, state, s, items);
    var item := items[0];
    if item.desired == -1 { return Rejected(TargetUnknown); }
    if item.ready == item.desired && item.spec == item.desired { return Unchanged; }
    var needed := Mul(ReplicaCalc(item.desired, item.spec), item.limits);
    var allowed, failed := ResourceQuotaCheck(s.quotasOf(item.ns), needed);
    AdmittedMeansRead(s.quotasOf(item.ns), needed);
    if failed { return Rejected(QuotasUnread); }
    if !allowed { return Rejected(QuotaViolated); }
    return Reached(item);
  }

  method ReachList(p: Process, item: ScalingInfo) returns (ghost own: seq<System.Event>)
    requires p.Valid() && item.desired != -1 && !(item.ready == item.desired && item.spec == item.desired)
    modifies p`cluster, p`scalers, p`next, p`others, p`log, p.list, p.list.backing
    ensures p.Valid() && (p.list.backing == old(p.list.backing) || fresh(p.list.backing)) && old(p.log) <= p.log
    ensures |own| == 1 && own[0].ReconcileItem? && own[0].item == item
    ensures OwnOf(p.log) == OwnOf(old(p.log)) + own && p.log != [] && p.log[|p.log| - 1] == Own(own[0])
    ensures AimsRight(At(p.start, p.log, |p.log| - 1), p.scalers, own[0].id, item)
    ensures var m := At(p.start, p.log, |p.log| - 1).sh.deny;
            TakenOver(m, p.list.Entries(), item, NotFailing(m, item))
  {
    hide ConcurrentSlice.Contents, ConcurrentSlice.Entries, UniqueKeys, System.After, System.Run, OwnNumbers, OwnOf,
      TakenOver;
    p.Elsewhere();
    ghost var before, id, log := p.Now(), p.next, p.log;
    RedirectOrStart(p, item);
    own := [System.ReconcileItem(id, item)];
    if id in p.scalers { System.StartsOnCheckedTarget(before, id, item); }
    p.Record(before, Own(own[0]));
    assert p.log[..|p.log| - 1] == log;
  }

  /** The scaler a reconcile of an item started, if any, aims at the target whose quota was checked if and only if the
      item is not listed as failing with another one. */
  ghost predicate AimsRight(before: System.Sys, scalers: map<nat, Scaler>, id: nat, item: ScalingInfo) {
    id in scalers ==>
      var (listed, found) := Lookup(before.sh.deny, item);
      scalers[id].target == item.desired <==> !(found && listed.failure && listed.desired != item.desired)
  }

  predicate NotFailing(m: map<Key, ScalingInfo>, item: ScalingInfo) {
    KeyOf(item) in m ==> !m[KeyOf(item)].failure
  }

  /** The end of ReconcileScalingItem, one step up to the item being on the list. */
  method RedirectOrStart(p: Process, item: ScalingInfo)
    requires p.Valid() && item.desired != -1 && !(item.ready == item.desired && item.spec == item.desired)
    modifies p`scalers, p`next, p.list, p.list.backing
    ensures p.list.Sound() && (p.list.backing == old(p.list.backing) || fresh(p.list.backing))
    ensures forall id :: id in p.scalers ==> id < p.next
    ensures p.Now() == System.After(old(p.Now()), System.ReconcileItem(old(p.next), item))
    ensures TakenOver(old(p.list.Entries()), p.list.Entries(), item, NotFailing(old(p.list.Entries()), item))
  {
    p.EntriesAreKeyed();
    NothingNew(p.list.Entries(), item);
    hide ConcurrentSlice.Contents, ConcurrentSlice.Entries, UniqueKeys, System.Launch, System.Redirect, System.Run,
        OwnNumbers;
    var scalingItemNew, found := p.list.GetDeploymentInfoFromList(item);
    if found && !scalingItemNew.failure {
      if scalingItemNew.desired != item.desired { Redirect(p, scalingItemNew, item.desired); }
    } else {
      Start(p, scalingItemNew);
    }
  }

  /** Launches the chosen namespaces, in any order, and counts them off. */
  method LaunchAll(p: Process, overall: OverallNsInfo, dryRun: bool)
    returns (numberNsToScale: int, ghost launched: seq<string>, ghost own: seq<System.Event>)
    requires p.Valid()
    modifies p`cluster, p`scalers, p`next, p`others, p`log, p.list, p.list.backing
    ensures p.Valid() && (p.list.backing == old(p.list.backing) || fresh(p.list.backing)) && old(p.log) <= p.log
    ensures OwnOf(p.log) == OwnOf(old(p.log)) + own && Reconciles(own, AllItems(launched, overall.info))
    ensures Targets.Enumerates(launched, if dryRun then {} else ToBeScaled(overall))
    ensures numberNsToScale == overall.toScale - |launched|
  {
    hide ConcurrentSlice.Contents, ConcurrentSlice.Entries, UniqueKeys, System.Run, OwnNumbers, OwnOf, Reconciles,
      AllItems, LaunchedOf, ToBeScaled, Targets.Enumerates, Launching;
    numberNsToScale, launched, own := overall.toScale, [], [];
    NothingLaunched(overall, dryRun, p.log);
    var todo := overall.info.Keys;
    while todo != {}
      invariant p.Valid() && (p.list.backing == old(p.list.backing) || fresh(p.list.backing)) &&
                todo <= overall.info.Keys
      invariant Launching(old(p.log), p.log, own, launched, overall, dryRun, todo)
      invariant numberNsToScale == overall.toScale - |launched|
      decreases |todo|
    {
      var namespaceKey :| namespaceKey in todo;
      ghost var log, more := p.log, [];
      if overall.info[namespaceKey].scaleNamespace && !dryRun {
        numberNsToScale := numberNsToScale - 1;
        more := ReconcileNamespace(p, overall.info[namespaceKey].items);
        OneLaunched(old(p.log), log, p.log, own, more, launched, overall, dryRun, todo, namespaceKey);
        launched, own := launched + [namespaceKey], own + more;
      } else {
        OnePassedOver(old(p.log), log, own, launched, overall, dryRun, todo, namespaceKey);
      }
      todo := todo - {namespaceKey};
    }
    AllLaunched(old(p.log), p.log, own, launched, overall, dryRun);
  }

  /** Launched so far: the chosen among the namespaces met. */
  ghost predicate LaunchedOf(launched: seq<string>, overall: OverallNsInfo, dryRun: bool, todo: set<string>) {
    (forall ns :: ns in launched <==> !dryRun && ns in ToBeScaled(overall) && ns !in todo) &&
    forall i, j :: 0 <= i < j < |launched| ==> launched[i] != launched[j]
  }

  /** How far the launches are. */
  ghost predicate Launching(
      log0: seq<Entry>, log: seq<Entry>, own: seq<System.Event>, launched: seq<string>, overall: OverallNsInfo,
      dryRun: bool, todo: set<string>)
  {
    log0 <= log && OwnOf(log) == OwnOf(log0) + own && Reconciles(own, AllItems(launched, overall.info)) &&
    LaunchedOf(launched, overall, dryRun, todo)
  }

  lemma {:induction false} NothingLaunched(overall: OverallNsInfo, dryRun: bool, log: seq<Entry>)
    ensures Launching(log, log, [], [], overall, dryRun, overall.info.Keys)
  {
    hide OwnOf;
  }

  lemma {:induction false} OneLaunched(
      log0: seq<Entry>, log: seq<Entry>, log': seq<Entry>, own: seq<System.Event>, more: seq<System.Event>,
      launched: seq<string>, overall: OverallNsInfo, dryRun: bool, todo: set<string>, ns: string)
    requires Launching(log0, log, own, launched, overall, dryRun, todo) && ns in todo && ns in overall.info
    requires overall.info[ns].scaleNamespace && !dryRun
    requires log <= log' && OwnOf(log') == OwnOf(log) + more && Reconciles(more, overall.info[ns].items)
    ensures Launching(log0, log', own + more, launched + [ns], overall, dryRun, todo - {ns})
  {
    hide OwnOf, Reconciles;
    assert (launched + [ns])[..|launched|] == launched;
    ReconcilesMore(own, AllItems(launched, overall.info), more, overall.info[ns].items);
    hide AllItems;
  }

  lemma {:induction false} OnePassedOver(
      log0: seq<Entry>, log: seq<Entry>, own: seq<System.Event>, launched: seq<string>, overall: OverallNsInfo,
      dryRun: bool, todo: set<string>, ns: string)
    requires Launching(log0, log, own, launched, overall, dryRun, todo) && ns in todo && ns in overall.info
    requires !overall.info[ns].scaleNamespace || dryRun
    ensures Launching(log0, log, own, launched, overall, dryRun, todo - {ns})
  {
    hide OwnOf, Reconciles, AllItems;
  }

  lemma {:induction false} AllLaunched(
      log0: seq<Entry>, log: seq<Entry>, own: seq<System.Event>, launched: seq<string>, overall: OverallNsInfo,
          dryRun: bool)
    requires Launching(log0, log, own, launched, overall, dryRun, {})
    ensures log0 <= log && OwnOf(log) == OwnOf(log0) + own && Reconciles(own, AllItems(launched, overall.info))
    ensures Targets.Enumerates(launched, if dryRun then {} else ToBeScaled(overall))
  {
    hide OwnOf, Reconciles, AllItems;
    assert forall i :: 0 <= i < |launched| ==> launched[i] in launched;
  }

  /** One item given, at most one selected. */
  lemma {:induction false} AtMostOne(given: ScalingInfo, state: State, s: Surroundings, items: seq<ScalingInfo>)
    requires s.css.Some? && ItemsToScale([given], state, s, items) && items != []
    ensures items == [items[0]]
  {
    var resolved := Resolve([given], state, s);
    CountsKnown([given], state, s, items);
    hide Resolve;
    var rs :| Targets.CountsFor(resolved, s.atoi, rs) && items == Targets.Selected(resolved, rs);
    assert Targets.Selected(resolved[..0], rs[..0]) == [];
  }

  // ----- namespaces as a whole

  /** What a reconcile of namespaces went through: the groups, the decisions, how long the run was then, and the
      launches. */
  datatype Preparation = Preparation(
    groups: Groups, overall: OverallNsInfo, rounds: seq<Budget.Round>, views: seq<View>, decided: nat,
    launched: seq<string>, launches: seq<System.Event>)

  /** The groups are those of the listing. */
  ghost predicate IsPartition(groups: Groups, listing: seq<ScalingInfo>) {
    (forall ns :: ns in groups <==> Grouping.Occurs(listing, ns)) &&
    forall ns :: ns in groups ==> multiset(groups[ns]) == multiset(Grouping.OfNamespace(listing, ns))
  }

  /** The decisions are those of the listing, and the launches those of the decisions. */
  ghost predicate Prepared(pr: Preparation, listing: seq<ScalingInfo>, s: Surroundings)
    requires s.css.Some?
  {
    IsPartition(pr.groups, listing) && IsRun(pr.overall, pr.rounds, MaxConcurrent(s)) &&
    OneRoundEach(pr.rounds, pr.groups.Keys) && DecisionsRight(pr.rounds, pr.views, pr.groups, s) &&
    EntriesRight(pr.groups, s, pr.overall.info) &&
    Targets.Enumerates(pr.launched, if s.dryRun then {} else ToBeScaled(pr.overall)) &&
    Reconciles(pr.launches, AllItems(pr.launched, pr.overall.info))
  }

  lemma {:induction false} IsPrepared(pr: Preparation, listing: seq<ScalingInfo>, s: Surroundings)
    requires s.css.Some? && IsPartition(pr.groups, listing) && IsRun(pr.overall, pr.rounds, MaxConcurrent(s))
    requires OneRoundEach(pr.rounds, pr.groups.Keys) && DecisionsRight(pr.rounds, pr.views, pr.groups, s)
    requires EntriesRight(pr.groups, s, pr.overall.info)
    requires Targets.Enumerates(pr.launched, if s.dryRun then {} else ToBeScaled(pr.overall))
    requires Reconciles(pr.launches, AllItems(pr.launched, pr.overall.info))
    ensures Prepared(pr, listing, s)
  {
  }

  /** Where in the run the reconcile's own events stand: the redirects before `decided`, the launches after. */
  ghost predicate InRun(pr: Preparation, log0: seq<Entry>, log: seq<Entry>) {
    |log0| <= pr.decided <= |log| && log0 <= log && OwnOf(log[..pr.decided]) == OwnOf(log0) + AllRedirects(pr.views) &&
    OwnOf(log) == OwnOf(log[..pr.decided]) + pr.launches
  }

  /** What the reconcile tells of a namespace. */
  datatype NamespaceInfo = NamespaceInfo(quotaExceeded: string, appliedState: string, scaleNamespace: bool)

  function Report(info: map<string, NamespaceScaleInfo>): map<string, NamespaceInfo> {
    map ns | ns in info :: NamespaceInfo(info[ns].quotaExceeded, info[ns].finalState.name, info[ns].scaleNamespace)
  }

  /** It tells of each namespace it has an entry for: the state read for it, none if that failed; whether it is chosen;
      and, in a dry run, whether its quotas would not allow the scaling. */
  ghost predicate Reports(nsInfoMap: map<string, NamespaceInfo>, overall: OverallNsInfo, s: Surroundings) {
    nsInfoMap.Keys == overall.info.Keys &&
    forall ns :: ns in nsInfoMap ==>
      nsInfoMap[ns].appliedState == (if s.stateOf(ns).Some? then s.stateOf(ns).value.name else "") &&
      (nsInfoMap[ns].scaleNamespace <==> ns in ToBeScaled(overall)) &&
      nsInfoMap[ns].quotaExceeded ==
        if s.stateOf(ns).Some? && s.dryRun && !Admits(s.quotasOf(ns), Demand(overall.info[ns].items)) then ns else ""
  }

  lemma {:induction false} ReportedRight(groups: Groups, overall: OverallNsInfo, s: Surroundings)
    requires s.css.Some? && EntriesRight(groups, s, overall.info)
    ensures Reports(Report(overall.info), overall, s)
  {
    hide ItemsToScale, Admits, Demand;
    forall ns | ns in overall.info ensures EntryRight(ns, groups[ns], s, overall.info[ns]) {}
  }

  /** The reconcile of one namespace or all: list, group, decide, launch, and ask to be triggered again when the counter
      says that something is left. */
  method PrepareForNamespaceReconcile(p: Process, listing: Option<seq<ScalingInfo>>, s: Surroundings)
    returns (nsInfoMap: map<string, NamespaceInfo>, reTrigger: bool, ok: bool, ghost pr: Preparation)
    requires p.Valid()
    requires listing.Some? ==> forall i :: 0 <= i < |listing.value| ==> Targets.Cuttable(listing.value[i].annotations)
    modifies p`cluster, p`scalers, p`next, p`others, p`log, p.list, p.list.backing
    ensures p.Valid() && (p.list.backing == old(p.list.backing) || fresh(p.list.backing)) && old(p.log) <= p.log
    ensures ok <==> listing.Some? && (listing.value == [] || s.css.Some?)
    ensures !ok || listing.value == [] ==> p.log == old(p.log) && nsInfoMap == map[] && reTrigger == listing.None?
    ensures ok && listing.value != [] ==>
              s.css.Some? && Prepared(pr, listing.value, s) && InRun(pr, old(p.log), p.log) &&
              ViewsSeen(p.start, p.log, |old(p.log)|, pr.views) && Reports(nsInfoMap, pr.overall, s) &&
              (reTrigger <==> !s.dryRun && (ToBeScaled(pr.overall) != Budget.Wanted(pr.rounds) ||
                                            Budget.Recounts(pr.rounds, MaxConcurrent(s)) > 0))
    ensures ok && listing.value != [] ==>
              var room := (if s.maxInEnv == 0 then 1 else s.maxInEnv) - pr.overall.beingScaled;
              (ToBeScaled(pr.overall) == {} || |ToBeScaled(pr.overall)| <= room) &&
              (ToBeScaled(pr.overall) != Budget.Wanted(pr.rounds) ==> |ToBeScaled(pr.overall)| >= room)
  {
    hide ConcurrentSlice.Contents, ConcurrentSlice.Entries, UniqueKeys, System.Run, OwnNumbers, OwnOf, AllItems,
      Reconciles, Prepared, Targets.Cuttable, IsRun, DecisionsRight, EntriesRight, AllRedirects, Decisions.Grouped,
      Budget.Recounts, Budget.Wanted, ToBeScaled, IsPartition, InRun, ViewsSeen, OneRoundEach, Targets.Enumerates,
      Reports;
    pr := Preparation(map[], OverallNsInfo(map[], 0, 0), [], [], 0, [], []);
    if listing.None? { return map[], true, false, pr; }
    if |listing.value| == 0 { return map[], false, true, pr; }
    var groups := Group(listing.value);
    ghost var rounds, views, launched, launches;
    var overall: OverallNsInfo;
    overall, ok, rounds, views := MakeNamespacesScaleDecisions(groups, s, p);
    if !ok { return map[], false, false, pr; }
    ghost var log := p.log;
    var numberNsToScale: int;
    numberNsToScale, launched, launches := LaunchAll(p, overall, s.dryRun);
    pr := Preparation(groups, overall, rounds, views, |log|, launched, launches);
    IsPrepared(pr, listing.value, s);
    IsInRun(pr, old(p.log), log, p.log);
    StillViewed(p.start, log, p.log, |old(p.log)|, views);
    Targets.EnumerationSize(launched, if s.dryRun then {} else ToBeScaled(overall));
    ResultInBudget(overall, rounds, MaxConcurrent(s));
    ReportedRight(groups, overall, s);
    return Report(overall.info), numberNsToScale > 0 && !s.dryRun, true, pr;
  }

  lemma {:induction false} IsInRun(pr: Preparation, log0: seq<Entry>, mid: seq<Entry>, log: seq<Entry>)
    requires log0 <= mid <= log && pr.decided == |mid|
    requires OwnOf(mid) == OwnOf(log0) + AllRedirects(pr.views) && OwnOf(log) == OwnOf(mid) + pr.launches
    ensures InRun(pr, log0, log)
  {
    hide OwnOf, AllRedirects;
    assert log[..|mid|] == mid;
  }

  lemma {:induction false} StillViewed(start: System.Sys, log: seq<Entry>, log': seq<Entry>, q: nat, views: seq<View>)
    requires ViewsSeen(start, log, q, views) && log <= log'
    ensures ViewsSeen(start, log', q, views)
  {
    hide AllSeen;
    forall i | 0 <= i < |views|
      ensures AllSeen(start, log', q, views[i].first) && AllSeen(start, log', q, views[i].later)
    {
      StillAllSeen(start, log, log', q, q, views[i].first);
      StillAllSeen(start, log, log', q, q, views[i].later);
    }
  }

  method Group(listing: seq<ScalingInfo>) returns (groups: Groups)
    requires forall i :: 0 <= i < |listing| ==> Targets.Cuttable(listing[i].annotations)
    ensures IsPartition(groups, listing) && Decisions.Grouped(groups)
  {
    var items := new ScalingInfo[|listing|](i requires 0 <= i < |listing| => listing[i]);
    assert items[..] == listing;
    groups := Grouping.GroupScalingItemByNamespace(items);
    GroupsAreGrouped(groups, listing);
  }

  /** What is in a group is in the listing, and of the namespace. */
  lemma {:induction false} InListing(groups: Groups, listing: seq<ScalingInfo>, ns: string, i: nat)
    requires IsPartition(groups, listing) && ns in groups && i < |groups[ns]|
    ensures groups[ns][i] in listing && groups[ns][i].ns == ns
    ensures multiset(groups[ns])[groups[ns][i]] == multiset(listing)[groups[ns][i]]
  {
    var item := groups[ns][i];
    assert item in multiset(groups[ns]);
    Grouping.GroupAsMultiset(listing, ns, item);
    assert item in multiset(listing);
  }

  lemma {:induction false} GroupsAreGrouped(groups: Groups, listing: seq<ScalingInfo>)
    requires IsPartition(groups, listing)
    requires forall i :: 0 <= i < |listing| ==> Targets.Cuttable(listing[i].annotations)
    ensures Decisions.Grouped(groups)
  {
    hide Targets.Cuttable, IsPartition;
    forall ns, i | ns in groups && 0 <= i < |groups[ns]|
      ensures groups[ns][i].ns == ns && Targets.Cuttable(groups[ns][i].annotations)
    {
      InListing(groups, listing, ns, i);
    }
  }
}

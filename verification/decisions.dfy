/** The decisions about namespaces: which are to be scaled, and which listed items are redirected on the way. Others use
    the list all the time. */
module Decisions {
  import opened Items
  import opened DenyList
  import opened Concurrent
  import States
  import opened Targets
  import opened ResourceLists
  import opened Quotas
  import opened Budget
  import System
  import opened Processes
  import opened Judgement

  /** quotaExceeded is the namespace when a dry run finds that its quotas do not allow the scaling. */
  datatype NamespaceScaleInfo = NamespaceScaleInfo(
    items: seq<ScalingInfo>, finalState: State, scaleNamespace: bool, stateError: bool, quotaError: bool,
    quotaExceeded: string)

  datatype OverallNsInfo = OverallNsInfo(info: map<string, NamespaceScaleInfo>, beingScaled: nat, toScale: nat)

  /** What the cluster and the environment answer: the state of a namespace, unless reading it fails; the cluster
      states, unless listing them fails; the quotas of a namespace; the text-to-number function; the number in the
      environment variable. */
  datatype Surroundings = Surroundings(
    stateOf: string -> Option<State>,
    css: Option<seq<States.ClusterState>>,
    definitions: seq<State>,
    quotasOf: string -> Listing,
    atoi: Atoi,
    maxInEnv: int,
    dryRun: bool)

  function MaxConcurrent(s: Surroundings): int {
    if s.maxInEnv == 0 then 1 else s.maxInEnv
  }

  function Flags(info: map<string, NamespaceScaleInfo>): map<string, bool> {
    map ns | ns in info :: info[ns].scaleNamespace
  }

  ghost function Resolve(items: seq<ScalingInfo>, state: State, s: Surroundings): (r: seq<ScalingInfo>)
    requires s.css.Some?
    ensures |r| == |items| &&
            forall i :: 0 <= i < |items| ==> r[i] == States.Resolved(items[i], state, s.css.value, s.definitions)
  {
    seq(|items|, i requires 0 <= i < |items| => States.Resolved(items[i], state, s.css.value, s.definitions))
  }

  /** The items of a namespace to be scaled: resolved, and not at the target their annotations give. */
  ghost predicate ItemsToScale(items: seq<ScalingInfo>, state: State, s: Surroundings, toScale: seq<ScalingInfo>)
    requires s.css.Some?
  {
    exists rs :: CountsFor(Resolve(items, state, s), s.atoi, rs) && toScale == Selected(Resolve(items, state, s), rs)
  }

  predicate OffTarget(items: seq<ScalingInfo>) {
    exists i :: 0 <= i < |items| && items[i].spec != items[i].desired
  }

  /** The right decision about the items to scale of a namespace, by what was seen of the list meanwhile. */
  ghost predicate DecidesOn(toScale: seq<ScalingInfo>, quotas: Listing, dryRun: bool, v: View, decision: Decision) {
    if toScale == [] then decision.Undecided? && v == UNSEEN
    else if dryRun then decision == Judged(OffTarget(toScale), false) && v == UNSEEN
    else if quotas.ListingFails? then decision.QuotaFailed? && v == UNSEEN
    else if !Admits(quotas, Demand(toScale)) then decision.Refused? && v == UNSEEN
    else decision.Judged? && Judges(v, toScale, decision.wants, decision.busy)
  }

  predicate Flagged(decision: Decision) {
    match decision
    case Judged(wants, _) => wants
    case _ => false
  }

  ghost function Exceeded(ns: string, toScale: seq<ScalingInfo>, quotas: Listing, dryRun: bool): string {
    if dryRun && !Admits(quotas, Demand(toScale)) then ns else ""
  }

  /** The decision about the items of a namespace, and the entry that goes with it. */
  ghost predicate DecidedOn(
      ns: string, toScale: seq<ScalingInfo>, state: State, quotas: Listing, dryRun: bool, v: View,
      decision: Decision, entry: Option<NamespaceScaleInfo>)
  {
    DecidesOn(toScale, quotas, dryRun, v, decision) &&
    entry == if decision.Undecided? || decision.Refused? then None
             else Some(NamespaceScaleInfo(toScale, state, Flagged(decision), false, quotas.ListingFails?,
                                          Exceeded(ns, toScale, quotas, dryRun)))
  }

  ghost predicate Decided(
      ns: string, items: seq<ScalingInfo>, s: Surroundings, v: View,
      decision: Decision, entry: Option<NamespaceScaleInfo>)
    requires s.css.Some?
  {
    match s.stateOf(ns)
    case None =>
      decision.StateFailed? && entry == Some(NamespaceScaleInfo(items, NO_STATE, false, true, false, "")) &&
      v == UNSEEN
    case Some(state) =>
      exists toScale :: ItemsToScale(items, state, s, toScale) &&
                        DecidedOn(ns, toScale, state, s.quotasOf(ns), s.dryRun, v, decision, entry)
  }

  /** Resolution and target determination of one namespace. */
  method Determine(items: seq<ScalingInfo>, state: State, s: Surroundings) returns (toScale: seq<ScalingInfo>)
    requires s.css.Some? && forall i :: 0 <= i < |items| ==> Cuttable(items[i].annotations)
    ensures ItemsToScale(items, state, s, toScale)
  {
    var slice := new ScalingInfo[|items|](i requires 0 <= i < |items| => items[i]);
    States.GetAppliedStatesOnItems(slice, state, s.css.value, s.definitions);
    forall i | 0 <= i < |items| ensures slice[i].annotations == items[i].annotations {
      States.ResolutionFacts(items[i], state, s.css.value, s.definitions);
    }
    assert slice[..] == Resolve(items, state, s);
    hide States.Resolved, Cuttable;
    ghost var rs;
    toScale, rs := DetermineDesiredReplicas(slice, s.atoi);
  }

  method IsOffTarget(items: seq<ScalingInfo>) returns (off: bool)
    ensures off <==> OffTarget(items)
  {
    off := false;
    for i := 0 to |items|
      invariant off <==> exists j :: 0 <= j < i && items[j].spec != items[j].desired
    {
      if items[i].spec != items[i].desired { off := true; }
    }
  }

  lemma {:induction false} AdmittedMeansRead(quotas: Listing, need: ResourceList)
    ensures Admits(quotas, need) ==> !quotas.ListingFails?
  {
  }

  /** The body of the loop over the namespaces, up to the pass. A quota that cannot be read leaves an entry that a dry
      run then replaces. */
  method DecideNamespace(ns: string, items: seq<ScalingInfo>, s: Surroundings, p: Process)
    returns (decision: Decision, entry: Option<NamespaceScaleInfo>, ghost v: View)
    requires s.css.Some? && p.Valid() && forall i :: 0 <= i < |items| ==> Cuttable(items[i].annotations)
    modifies p`cluster, p`scalers, p`next, p`others, p`log, p.list, p.list.backing
    ensures p.Valid() && (p.list.backing == old(p.list.backing) || fresh(p.list.backing)) && old(p.log) <= p.log
    ensures Decided(ns, items, s, v, decision, entry) && OwnOf(p.log) == OwnOf(old(p.log)) + v.redirects
    ensures AllSeen(p.start, p.log, |old(p.log)|, v.first) && AllSeen(p.start, p.log, |old(p.log)|, v.later)
  {
    hide ConcurrentSlice.Contents, ConcurrentSlice.Entries, ItemsToScale, Admits, Demand, OffTarget, Redirects,
      Cuttable, OwnOf, OwnNumbers, System.Run, Judges, UniqueKeys, SeenSince;
    v := UNSEEN;
    var state := s.stateOf(ns);
    if state.None? {
      decision, entry := StateFailed, Some(NamespaceScaleInfo(items, NO_STATE, false, true, false, ""));
      return;
    }
    var toScale := Determine(items, state.value, s);
    if |toScale| == 0 {
      decision, entry := Undecided, None;
      return;
    }
    var needed := LimitsNeededList(toScale);
    var allowed, failed := ResourceQuotaCheck(s.quotasOf(ns), needed);
    entry := None;
    if failed { entry := Some(NamespaceScaleInfo(toScale, state.value, false, false, true, "")); }
    var quotaExceeded := if allowed then "" else ns;
    if s.dryRun {
      var off := IsOffTarget(toScale);
      decision := Judged(off, false);
      entry := Some(NamespaceScaleInfo(toScale, state.value, off, false, failed, quotaExceeded));
      return;
    }
    AdmittedMeansRead(s.quotasOf(ns), needed);
    if allowed {
      var wants, busy;
      wants, busy, v := JudgeNamespace(p, toScale);
      ViewFits(v, toScale, wants, busy);
      decision, entry := Judged(wants, busy), Some(NamespaceScaleInfo(toScale, state.value, wants, false, false, ""));
      return;
    }
    decision := if failed then QuotaFailed else Refused;
  }

  lemma {:induction false} ViewFits(v: View, items: seq<ScalingInfo>, wants: bool, busy: bool)
    requires Judges(v, items, wants, busy)
    ensures |v.first| == |v.later| == |items|
  {
  }

  ghost predicate SameButFlag(given: map<string, NamespaceScaleInfo>, info: map<string, NamespaceScaleInfo>) {
    info.Keys == given.Keys &&
        forall ns :: ns in info ==> info[ns] == given[ns].(scaleNamespace := info[ns].scaleNamespace)
  }

  /** The body of the inner loop. */
  method VisitEntry(given: map<string, NamespaceScaleInfo>, namespaceKey: string, budget: int, counted: nat)
    returns (info: map<string, NamespaceScaleInfo>, nsScaleBudget: int, numberNsToScale: nat)
    requires namespaceKey in given
    ensures Pass(Flags(info), nsScaleBudget, numberNsToScale) == Visit(Pass(Flags(given), budget, counted),
            namespaceKey)
    ensures info.Keys == given.Keys && SameButFlag(given, info)
  {
    info, nsScaleBudget, numberNsToScale := given, budget, counted;
    var item := info[namespaceKey];
    if item.scaleNamespace {
      numberNsToScale := numberNsToScale + 1;
      nsScaleBudget := nsScaleBudget - 1;
    }
    if nsScaleBudget < 0 {
      info := info[namespaceKey := item.(scaleNamespace := false)];
      assert Flags(info) == Flags(given)[namespaceKey := false];
    }
  }

  /** How far a pass is. */
  ghost predicate MidPass(
      given: map<string, NamespaceScaleInfo>, budget: int, counted: nat, order: seq<string>, todo: set<string>,
      info: map<string, NamespaceScaleInfo>, nsScaleBudget: int, numberNsToScale: nat)
  {
    Distinct(order) && (forall ns :: ns in order <==> ns in given && ns !in todo) && SameButFlag(given, info) &&
    (forall i :: 0 <= i < |order| ==> order[i] in Flags(given)) &&
    Pass(Flags(info), nsScaleBudget, numberNsToScale) == Visits(Pass(Flags(given), budget, counted), order)
  }

  lemma {:induction false} PassBegins(given: map<string, NamespaceScaleInfo>, budget: int, counted: nat)
    ensures MidPass(given, budget, counted, [], given.Keys, given, budget, counted)
  {
  }

  lemma {:induction false} PassGoesOn(
      given: map<string, NamespaceScaleInfo>, budget: int, counted: nat, order: seq<string>, todo: set<string>,
      before: map<string, NamespaceScaleInfo>, left: int, count: nat, ns: string,
      info: map<string, NamespaceScaleInfo>, left': int, count': nat)
    requires MidPass(given, budget, counted, order, todo, before, left, count) && ns in todo && ns in before
    requires Pass(Flags(info), left', count') == Visit(Pass(Flags(before), left, count), ns) &&
             SameButFlag(before, info)
    ensures MidPass(given, budget, counted, order + [ns], todo - {ns}, info, left', count')
  {
    hide Visits, Visit, Flags, SameButFlag, Distinct;
    SameFlagged(given, before, info, ns);
    MetOnceMore(order, ns);
    VisitsSnoc(Pass(Flags(given), budget, counted), order, ns);
  }

  lemma {:induction false} MetOnceMore(order: seq<string>, ns: string)
    requires Distinct(order) && ns !in order
    ensures Distinct(order + [ns])
  {
  }

  lemma {:induction false} SameFlagged(
      given: map<string, NamespaceScaleInfo>, before: map<string, NamespaceScaleInfo>,
      info: map<string, NamespaceScaleInfo>, ns: string)
    requires SameButFlag(given, before) && SameButFlag(before, info) && ns in before
    ensures SameButFlag(given, info) && ns in given && ns in Flags(given) && ns in Flags(before)
  {
  }

  lemma {:induction false} PassEnds(
      given: map<string, NamespaceScaleInfo>, budget: int, counted: nat, order: seq<string>,
      info: map<string, NamespaceScaleInfo>, left: int, count: nat)
    requires MidPass(given, budget, counted, order, {}, info, left, count)
    ensures Orders(order, Flags(given)) && SameButFlag(given, info)
    ensures var p := Visits(Pass(Flags(given), budget, counted), order); Flags(info) == p.scale && count == p.counted
  {
    assert Flags(given).Keys == given.Keys;
    hide Visits, Flags, SameButFlag;
  }

  /** The inner loop, with the entries in any order. */
  method BudgetPass(given: map<string, NamespaceScaleInfo>, budget: int, counted: nat)
    returns (info: map<string, NamespaceScaleInfo>, numberNsToScale: nat, ghost order: seq<string>)
    ensures Orders(order, Flags(given))
    ensures var p := Visits(Pass(Flags(given), budget, counted), order);
            Flags(info) == p.scale && numberNsToScale == p.counted
    ensures SameButFlag(given, info)
  {
    hide Visits, Visit, Flags, SameButFlag, MidPass, Orders;
    info, numberNsToScale, order := given, counted, [];
    var nsScaleBudget, todo := budget, given.Keys;
    PassBegins(given, budget, counted);
    while todo != {}
      invariant todo <= given.Keys && info.Keys == given.Keys
      invariant MidPass(given, budget, counted, order, todo, info, nsScaleBudget, numberNsToScale)
      decreases |todo|
    {
      var namespaceKey :| namespaceKey in todo;
      ghost var before, left, count := info, nsScaleBudget, numberNsToScale;
      info, nsScaleBudget, numberNsToScale := VisitEntry(info, namespaceKey, nsScaleBudget, numberNsToScale);
      PassGoesOn(given, budget, counted, order, todo, before, left, count, namespaceKey, info, nsScaleBudget,
          numberNsToScale);
      order := order + [namespaceKey];
      todo := todo - {namespaceKey};
    }
    PassEnds(given, budget, counted, order, info, nsScaleBudget, numberNsToScale);
  }

  lemma {:induction false} VisitsSnoc(p: Pass, order: seq<string>, ns: string)
    requires ns in p.scale && forall i :: 0 <= i < |order| ==> order[i] in p.scale
    ensures Visits(p, order + [ns]) == Visit(Visits(p, order), ns)
  {
    assert (order + [ns])[..|order|] == order;
  }

  // ----- the loop

  type Groups = map<string, seq<ScalingInfo>>

  /** Groups as the grouping leaves them, with annotations that can be read. */
  ghost predicate Grouped(groups: Groups) {
    forall ns, i :: ns in groups && 0 <= i < |groups[ns]| ==>
      groups[ns][i].ns == ns && Cuttable(groups[ns][i].annotations)
  }

  /** The decision the namespace deserves, by its items, its quotas and what was seen of the list. */
  ghost predicate DecisionRight(ns: string, decision: Decision, items: seq<ScalingInfo>, s: Surroundings, v: View)
    requires s.css.Some?
  {
    match s.stateOf(ns)
    case None => decision.StateFailed? && v == UNSEEN
    case Some(state) =>
      exists toScale :: ItemsToScale(items, state, s, toScale) &&
        DecidesOn(toScale, s.quotasOf(ns), s.dryRun, v, decision)
  }

  ghost predicate EntryRight(ns: string, items: seq<ScalingInfo>, s: Surroundings, e: NamespaceScaleInfo)
    requires s.css.Some?
  {
    match s.stateOf(ns)
    case None =>
      e.items == items && e.finalState == NO_STATE && e.stateError && !e.scaleNamespace && e.quotaExceeded == ""
    case Some(state) =>
      ItemsToScale(items, state, s, e.items) && e.finalState == state && !e.stateError &&
      e.quotaError == s.quotasOf(ns).ListingFails? &&
      e.quotaExceeded == Exceeded(ns, e.items, s.quotasOf(ns), s.dryRun) &&
      (e.scaleNamespace && !s.dryRun ==> Admits(s.quotasOf(ns), Demand(e.items)))
  }

  lemma {:induction false} CountsKnown(items: seq<ScalingInfo>, state: State, s: Surroundings,
      toScale: seq<ScalingInfo>)
    requires s.css.Some? && ItemsToScale(items, state, s, toScale)
    ensures exists rs :: CountsFor(Resolve(items, state, s), s.atoi, rs) &&
              toScale == Selected(Resolve(items, state, s), rs)
  {
  }

  lemma {:induction false} CountsLength(items: seq<ScalingInfo>, atoi: Atoi, rs: seq<Option<int>>)
    requires CountsFor(items, atoi, rs)
    ensures |rs| == |items|
  {
  }

  ghost predicate OnlyRedirects(evs: seq<System.Event>) {
    forall i :: 0 <= i < |evs| ==> evs[i].Outside? && evs[i].e.Retarget?
  }

  lemma {:induction false} RedirectsAreRedirects(first: seq<map<Key, ScalingInfo>>, items: seq<ScalingInfo>)
    requires |first| == |items|
    ensures OnlyRedirects(Redirects(first, items))
  {
    hide Redirected;
    if items != [] { RedirectsAreRedirects(first[..|items| - 1], items[..|items| - 1]); }
  }

  /** What follows of a decision taken. */
  lemma {:induction false} FromDecided(
      ns: string, items: seq<ScalingInfo>, s: Surroundings, v: View, decision: Decision,
      entry: Option<NamespaceScaleInfo>)
    requires s.css.Some? && Decided(ns, items, s, v, decision, entry)
    ensures DecisionRight(ns, decision, items, s, v)
    ensures entry.Some? <==> !decision.Undecided? && !decision.Refused?
    ensures entry.Some? ==> EntryRight(ns, items, s, entry.value) && entry.value.scaleNamespace == Flagged(decision)
  {
    if s.stateOf(ns).Some? {
      var state, quotas := s.stateOf(ns).value, s.quotasOf(ns);
      var toScale :| ItemsToScale(items, state, s, toScale) &&
          DecidedOn(ns, toScale, state, quotas, s.dryRun, v, decision, entry);
      hide ItemsToScale, Admits, Demand, OffTarget, Judges;
      AdmittedMeansRead(quotas, Demand(toScale));
      assert ItemsToScale(items, state, s, toScale) && DecidesOn(toScale, quotas, s.dryRun, v, decision);
    }
  }

  /** What a decision means, told for each. Without items to scale there is none; otherwise a dry run judges by the
      items alone, and a live run refuses what the quotas, if they can be read, do not admit, and judges the rest. */
  lemma {:induction false} DecisionMeans(
      ns: string, decision: Decision, items: seq<ScalingInfo>, s: Surroundings, v: View)
    requires s.css.Some? && DecisionRight(ns, decision, items, s, v)
    ensures decision.StateFailed? <==> s.stateOf(ns).None?
    ensures s.stateOf(ns).Some? ==>
              exists toScale: seq<ScalingInfo> :: ItemsToScale(items, s.stateOf(ns).value, s, toScale) &&
                var quotas := s.quotasOf(ns);
                (decision.Undecided? <==> |toScale| == 0) &&
                (decision.QuotaFailed? <==> |toScale| > 0 && !s.dryRun && quotas.ListingFails?) &&
                (decision.Judged? <==> |toScale| > 0 && (s.dryRun || Admits(quotas, Demand(toScale)))) &&
                (decision.Judged? && s.dryRun ==>
                  !decision.busy &&
                  (decision.wants <==> exists i :: 0 <= i < |toScale| && toScale[i].spec != toScale[i].desired)) &&
                (decision.Judged? && !s.dryRun ==> Judges(v, toScale, decision.wants, decision.busy))
  {
    if s.stateOf(ns).Some? {
      var toScale :| ItemsToScale(items, s.stateOf(ns).value, s, toScale) &&
          DecidesOn(toScale, s.quotasOf(ns), s.dryRun, v, decision);
      hide ItemsToScale, Admits, Demand, Judges;
      AdmittedMeansRead(s.quotasOf(ns), Demand(toScale));
    }
  }

  /** Whatever it rests on, a decision makes redirects only. */
  lemma {:induction false} OnlyRedirected(
      ns: string, decision: Decision, items: seq<ScalingInfo>, s: Surroundings, v: View)
    requires s.css.Some? && DecisionRight(ns, decision, items, s, v)
    ensures OnlyRedirects(v.redirects)
  {
    hide OnlyRedirects;
    NoRedirects();
    if s.stateOf(ns).Some? && v != UNSEEN {
      var toScale :| ItemsToScale(items, s.stateOf(ns).value, s, toScale) &&
          DecidesOn(toScale, s.quotasOf(ns), s.dryRun, v, decision);
      hide ItemsToScale, Admits, Demand, OffTarget, Redirects;
      RedirectsAreRedirects(v.first, toScale);
    }
  }

  lemma {:induction false} NoRedirects()
    ensures OnlyRedirects([])
  {
  }

  ghost predicate EntriesRight(groups: Groups, s: Surroundings, info: map<string, NamespaceScaleInfo>)
    requires s.css.Some?
  {
    forall ns :: ns in info ==> ns in groups && EntryRight(ns, groups[ns], s, info[ns])
  }

  lemma {:induction false} EntriesStayRight(
      groups: Groups, s: Surroundings, given: map<string, NamespaceScaleInfo>, info: map<string, NamespaceScaleInfo>)
    requires s.css.Some? && EntriesRight(groups, s, given) && SameButFlag(given, info)
    requires forall ns :: ns in info && info[ns].scaleNamespace ==> given[ns].scaleNamespace
    ensures EntriesRight(groups, s, info)
  {
    hide ItemsToScale, Admits, Demand;
  }

  lemma {:induction false} GroupedAt(groups: Groups, ns: string)
    requires Grouped(groups) && ns in groups
    ensures forall i :: 0 <= i < |groups[ns]| ==> groups[ns][i].ns == ns && Cuttable(groups[ns][i].annotations)
  {
    hide Cuttable;
  }

  lemma {:induction false} OneMoreEntry(
      groups: Groups, s: Surroundings, info: map<string, NamespaceScaleInfo>, ns: string, entry: NamespaceScaleInfo)
    requires s.css.Some? && EntriesRight(groups, s, info) && ns in groups && EntryRight(ns, groups[ns], s, entry)
    ensures EntriesRight(groups, s, info[ns := entry])
  {
    hide EntryRight;
  }

  /** The part of the outer loop's body that comes before the pass. */
  method EnterNamespace(ns: string, groups: Groups, s: Surroundings, p: Process, given: OverallNsInfo)
    returns (overall: OverallNsInfo, decision: Decision, ghost v: View)
    requires s.css.Some? && p.Valid() && Grouped(groups) && ns in groups && ns !in given.info
    requires EntriesRight(groups, s, given.info)
    modifies p`cluster, p`scalers, p`next, p`others, p`log, p.list, p.list.backing
    ensures p.Valid() && (p.list.backing == old(p.list.backing) || fresh(p.list.backing)) && old(p.log) <= p.log
    ensures OwnOf(p.log) == OwnOf(old(p.log)) + v.redirects
    ensures AllSeen(p.start, p.log, |old(p.log)|, v.first) && AllSeen(p.start, p.log, |old(p.log)|, v.later)
    ensures DecisionRight(ns, decision, groups[ns], s, v)
    ensures overall.info.Keys <= given.info.Keys + {ns} && EntriesRight(groups, s, overall.info)
    ensures Entered(given, overall, ns, decision)
  {
    hide ConcurrentSlice.Contents, ConcurrentSlice.Entries, UniqueKeys, Decided, DecisionRight, EntryRight, Flags,
      Tallied, Flagged, Entries, EntriesRight, Grouped, Cuttable, OwnOf, OwnNumbers, System.Run, AllSeen;
    var entry: Option<NamespaceScaleInfo>;
    GroupedAt(groups, ns);
    decision, entry, v := DecideNamespace(ns, groups[ns], s, p);
    FromDecided(ns, groups[ns], s, v, decision, entry);
    EntryTallied(given, ns, decision, entry);
    if entry.Some? { OneMoreEntry(groups, s, given.info, ns, entry.value); }
    overall := given;
    if entry.Some? { overall := overall.(info := overall.info[ns := entry.value]); }
    if decision.Judged? && decision.busy { overall := overall.(beingScaled := overall.beingScaled + 1); }
  }

  /** One namespace of the outer loop: the decision, its entry, and the pass. */
  method OneNamespace(ns: string, groups: Groups, s: Surroundings, p: Process, given: OverallNsInfo)
    returns (overall: OverallNsInfo, ghost round: Round, ghost v: View)
    requires s.css.Some? && p.Valid() && Grouped(groups) && ns in groups && ns !in given.info
    requires EntriesRight(groups, s, given.info)
    modifies p`cluster, p`scalers, p`next, p`others, p`log, p.list, p.list.backing
    ensures p.Valid() && (p.list.backing == old(p.list.backing) || fresh(p.list.backing)) && old(p.log) <= p.log
    ensures OwnOf(p.log) == OwnOf(old(p.log)) + v.redirects
    ensures AllSeen(p.start, p.log, |old(p.log)|, v.first) && AllSeen(p.start, p.log, |old(p.log)|, v.later)
    ensures round.ns == ns && DecisionRight(ns, round.decision, groups[ns], s, v)
    ensures overall.info.Keys <= given.info.Keys + {ns} && EntriesRight(groups, s, overall.info)
    ensures var t := Tallied(given); Proper(t, round) && Tallied(overall) == NextTally(t, round, MaxConcurrent(s))
  {
    hide ConcurrentSlice.Contents, ConcurrentSlice.Entries, UniqueKeys, DecisionRight, EntriesRight, Grouped, Orders,
      SameButFlag, Flags, Visits, Entered, Proper, NextTally, Tallied, OwnOf, OwnNumbers, System.Run, AllSeen;
    var decision: Decision;
    overall, decision, v := EnterNamespace(ns, groups, s, p, given);
    round := Round(ns, decision, []);
    NoPassTallied(given, overall, ns, decision, MaxConcurrent(s));
    if decision.Undecided? || decision.StateFailed? { return; }
    var budget := MaxConcurrent(s) - overall.beingScaled;
    var info, toScale, order := BudgetPass(overall.info, budget, overall.toScale);
    PassOnlyDemotes(overall.info, budget, overall.toScale, order, info);
    EntriesStayRight(groups, s, overall.info, info);
    PassTallied(given, overall, ns, decision, MaxConcurrent(s), info, toScale, order);
    overall, round := overall.(info := info, toScale := toScale), Round(ns, decision, order);
  }

  /** The entry and the counter of busy namespaces are in place, and the pass is still to come. */
  ghost predicate Entered(given: OverallNsInfo, overall: OverallNsInfo, ns: string, decision: Decision) {
    ns !in given.info && overall.toScale == given.toScale &&
        overall.beingScaled == BusyAfter(given.beingScaled, decision) &&
    Flags(overall.info) == Entries(Tallied(given), Round(ns, decision, []))
  }

  lemma {:induction false} NoPassTallied(given: OverallNsInfo, overall: OverallNsInfo, ns: string, decision: Decision,
      max: int)
    requires Entered(given, overall, ns, decision)
    ensures decision.Undecided? || decision.StateFailed? ==>
              var t, round := Tallied(given), Round(ns, decision, []);
              Proper(t, round) && Tallied(overall) == NextTally(t, round, max)
  {
    hide Orders, Visits;
  }

  lemma {:induction false} PassTallied(
      given: OverallNsInfo, overall: OverallNsInfo, ns: string, decision: Decision, max: int,
      info: map<string, NamespaceScaleInfo>, toScale: nat, order: seq<string>)
    requires Entered(given, overall, ns, decision) && !decision.Undecided? && !decision.StateFailed?
    requires Orders(order, Flags(overall.info))
    requires var p := Visits(Pass(Flags(overall.info), max - overall.beingScaled, overall.toScale), order);
             Flags(info) == p.scale && toScale == p.counted
    ensures var t, round := Tallied(given), Round(ns, decision, order);
            Proper(t, round) && Tallied(overall.(info := info, toScale := toScale)) == NextTally(t, round, max)
  {
    hide Orders, Visits, Flags, Entries, BusyAfter, RunsPass, Proper, NextTally;
    NotFlagged(given.info, ns);
    NextAfterPass(Tallied(given), ns, decision, max, Flags(overall.info), overall.beingScaled, order);
  }

  lemma {:induction false} NotFlagged(info: map<string, NamespaceScaleInfo>, ns: string)
    requires ns !in info
    ensures ns !in Flags(info)
  {
  }

  ghost function Tallied(overall: OverallNsInfo): Tally {
    Tally(Flags(overall.info), overall.beingScaled, overall.toScale)
  }

  lemma {:induction false} EntryTallied(given: OverallNsInfo, ns: string, decision: Decision,
      entry: Option<NamespaceScaleInfo>)
    requires ns !in given.info
    requires entry.Some? <==> !decision.Undecided? && !decision.Refused?
    requires entry.Some? ==> entry.value.scaleNamespace == Flagged(decision)
    ensures var info := if entry.Some? then given.info[ns := entry.value] else given.info;
            Flags(info) == Entries(Tallied(given), Round(ns, decision, []))
  {
  }

  lemma {:induction false} PassOnlyDemotes(
      given: map<string, NamespaceScaleInfo>, budget: int, counted: nat, order: seq<string>,
      info: map<string, NamespaceScaleInfo>)
    requires Orders(order, Flags(given)) && Flags(info) == Visits(Pass(Flags(given), budget, counted), order).scale
    requires SameButFlag(given, info)
    ensures info.Keys == given.Keys
    ensures forall ns :: ns in info && info[ns].scaleNamespace ==> ns in given && given[ns].scaleNamespace
  {
    WholePass(Pass(Flags(given), budget, counted), order);
    var p := Visits(Pass(Flags(given), budget, counted), order);
    forall ns | ns in info && info[ns].scaleNamespace ensures ns in given && given[ns].scaleNamespace {
      assert ns in Chosen(Flags(info)) && ns in Chosen(Flags(given));
    }
  }

  /** The rounds are those of the namespaces done, one for each. */
  ghost predicate OneRoundEach(rounds: seq<Round>, done: set<string>) {
    (forall i :: 0 <= i < |rounds| ==> rounds[i].ns in done) &&
    (forall i, j :: 0 <= i < j < |rounds| ==> rounds[i].ns != rounds[j].ns) &&
    forall ns :: ns in done ==> exists i :: 0 <= i < |rounds| && rounds[i].ns == ns
  }

  lemma {:induction false} RoundDone(rounds: seq<Round>, done: set<string>, round: Round)
    requires OneRoundEach(rounds, done) && round.ns !in done
    ensures OneRoundEach(rounds + [round], done + {round.ns})
  {
    var all := rounds + [round];
    forall ns | ns in done + {round.ns} ensures exists i :: 0 <= i < |all| && all[i].ns == ns {
      if ns == round.ns {
        assert all[|rounds|].ns == ns;
      } else {
        var i :| 0 <= i < |rounds| && rounds[i].ns == ns;
        assert all[i].ns == ns;
      }
    }
  }

  /** Every namespace got the decision it deserved, by what was seen of the list since the q-th event. */
  ghost predicate DecisionsRight(rounds: seq<Round>, views: seq<View>, groups: Groups, s: Surroundings)
    requires s.css.Some?
  {
    |views| == |rounds| &&
    forall i :: 0 <= i < |rounds| ==>
      rounds[i].ns in groups && DecisionRight(rounds[i].ns, rounds[i].decision, groups[rounds[i].ns], s, views[i])
  }

  ghost predicate ViewsSeen(start: System.Sys, log: seq<Entry>, q: nat, views: seq<View>) {
    forall i :: 0 <= i < |views| ==> AllSeen(start, log, q, views[i].first) && AllSeen(start, log, q, views[i].later)
  }

  lemma {:induction false} OneMoreView(
      start: System.Sys, log: seq<Entry>, log': seq<Entry>, q: nat, views: seq<View>, v: View)
    requires ViewsSeen(start, log, q, views) && log <= log' && q <= |log|
    requires AllSeen(start, log', |log|, v.first) && AllSeen(start, log', |log|, v.later)
    ensures ViewsSeen(start, log', q, views + [v])
  {
    hide AllSeen;
    forall i | 0 <= i < |views|
      ensures AllSeen(start, log', q, views[i].first) && AllSeen(start, log', q, views[i].later)
    {
      StillAllSeen(start, log, log', q, q, views[i].first);
      StillAllSeen(start, log, log', q, q, views[i].later);
    }
    StillAllSeen(start, log', log', |log|, q, v.first);
    StillAllSeen(start, log', log', |log|, q, v.later);
  }

  lemma {:induction false} StillAllSeen(
      start: System.Sys, log: seq<Entry>, log': seq<Entry>, q: nat, q': nat, ms: seq<map<Key, ScalingInfo>>)
    requires AllSeen(start, log, q, ms) && log <= log' && q' <= q
    ensures AllSeen(start, log', q', ms)
  {
    hide SeenSince;
    forall i | 0 <= i < |ms| ensures SeenSince(start, log', q', ms[i]) { StillSeen(start, log, log', q, q', ms[i]); }
  }

  /** The result is that of a run of the loop in some order of the namespaces and of every pass. */
  ghost predicate IsRun(overall: OverallNsInfo, rounds: seq<Round>, max: int) {
    ProperRun(rounds, max) && Tallied(overall) == After(rounds, max)
  }

  lemma {:induction false} RunGoesOn(overall: OverallNsInfo, rounds: seq<Round>, max: int, round: Round,
      next: OverallNsInfo)
    requires IsRun(overall, rounds, max) && Proper(Tallied(overall), round)
    requires Tallied(next) == NextTally(Tallied(overall), round, max)
    ensures IsRun(next, rounds + [round], max)
  {
    hide Proper, NextTally, Tallied;
    var all := rounds + [round];
    assert all[..|rounds|] == rounds;
  }

  /** How far the outer loop is. */
  ghost predicate Underway(
      overall: OverallNsInfo, rounds: seq<Round>, views: seq<View>, todo: set<string>, done: set<string>,
      groups: Groups, s: Surroundings)
    requires s.css.Some?
  {
    todo !! done && todo + done == groups.Keys && overall.info.Keys <= done && EntriesRight(groups, s, overall.info) &&
    IsRun(overall, rounds, MaxConcurrent(s)) && OneRoundEach(rounds, done) && DecisionsRight(rounds, views, groups, s)
  }

  lemma {:induction false} Beginning(groups: Groups, s: Surroundings)
    requires s.css.Some?
    ensures Underway(OverallNsInfo(map[], 0, 0), [], [], groups.Keys, {}, groups, s)
  {
    assert Flags(map[]) == map[];
  }

  /** What the next namespace can rely on. */
  lemma {:induction false} NextInLine(
      overall: OverallNsInfo, rounds: seq<Round>, views: seq<View>, todo: set<string>, done: set<string>,
      groups: Groups, s: Surroundings, ns: string)
    requires s.css.Some? && Underway(overall, rounds, views, todo, done, groups, s) && ns in todo
    ensures ns in groups && ns !in overall.info && EntriesRight(groups, s, overall.info)
  {
    hide EntriesRight, IsRun, OneRoundEach, DecisionsRight;
    assert ns in groups.Keys;
  }

  lemma {:induction false} OneDone(
      given: OverallNsInfo, rounds: seq<Round>, views: seq<View>, todo: set<string>, done: set<string>, groups: Groups,
      s: Surroundings, overall: OverallNsInfo, round: Round, v: View)
    requires s.css.Some? && Underway(given, rounds, views, todo, done, groups, s) && round.ns in todo &&
             round.ns in groups
    requires DecisionRight(round.ns, round.decision, groups[round.ns], s, v)
    requires overall.info.Keys <= given.info.Keys + {round.ns} && EntriesRight(groups, s, overall.info)
    requires Proper(Tallied(given), round) && Tallied(overall) == NextTally(Tallied(given), round, MaxConcurrent(s))
    ensures Underway(overall, rounds + [round], views + [v], todo - {round.ns}, done + {round.ns}, groups, s)
  {
    hide EntriesRight, IsRun, OneRoundEach, DecisionRight, Proper, NextTally, Tallied;
    RunGoesOn(given, rounds, MaxConcurrent(s), round, overall);
    RoundDone(rounds, done, round);
  }

  lemma {:induction false} AllDone(
      overall: OverallNsInfo, rounds: seq<Round>, views: seq<View>, done: set<string>, groups: Groups, s: Surroundings)
    requires s.css.Some? && Underway(overall, rounds, views, {}, done, groups, s)
    ensures IsRun(overall, rounds, MaxConcurrent(s)) && OneRoundEach(rounds, groups.Keys)
    ensures DecisionsRight(rounds, views, groups, s) && EntriesRight(groups, s, overall.info)
  {
    hide EntriesRight, IsRun, OneRoundEach, DecisionsRight;
    assert done == groups.Keys;
  }

  /** The redirects of all decisions, in order. */
  function AllRedirects(views: seq<View>): seq<System.Event> {
    if views == [] then [] else AllRedirects(views[..|views| - 1]) + views[|views| - 1].redirects
  }

  lemma {:induction false} RedirectsSnoc(views: seq<View>, v: View)
    ensures AllRedirects(views + [v]) == AllRedirects(views) + v.redirects
  {
    assert (views + [v])[..|views|] == views;
  }

  /** All they do to the list are redirects. */
  lemma {:induction false} AllOnlyRedirects(rounds: seq<Round>, views: seq<View>, groups: Groups, s: Surroundings)
    requires s.css.Some? && DecisionsRight(rounds, views, groups, s)
    ensures OnlyRedirects(AllRedirects(views))
  {
    hide DecisionRight;
    if views != [] {
      var n := |views| - 1;
      AllOnlyRedirects(rounds[..n], views[..n], groups, s);
      OnlyRedirected(rounds[n].ns, rounds[n].decision, groups[rounds[n].ns], s, views[n]);
    }
  }

  /** The decisions about all namespaces, in any order, each with a pass in any order, while others go on using the
      list. Each namespace gets the decision that its items, its quotas and what was seen of the list deserve; all this
      does to the list are the redirects of its judgements, in order. */
  method MakeNamespacesScaleDecisions(groups: Groups, s: Surroundings, p: Process)
    returns (overall: OverallNsInfo, ok: bool, ghost rounds: seq<Round>, ghost views: seq<View>)
    requires p.Valid() && Grouped(groups)
    modifies p`cluster, p`scalers, p`next, p`others, p`log, p.list, p.list.backing
    ensures p.Valid() && (p.list.backing == old(p.list.backing) || fresh(p.list.backing)) && old(p.log) <= p.log
    ensures OwnOf(p.log) == OwnOf(old(p.log)) + AllRedirects(views)
    ensures ok <==> s.css.Some?
    ensures !ok ==> overall == OverallNsInfo(map[], 0, 0) && p.log == old(p.log)
    ensures ok ==> IsRun(overall, rounds, MaxConcurrent(s)) && OneRoundEach(rounds, groups.Keys) &&
                   DecisionsRight(rounds, views, groups, s) && EntriesRight(groups, s, overall.info) &&
                   ViewsSeen(p.start, p.log, |old(p.log)|, views)
    ensures ok ==> var room := (if s.maxInEnv == 0 then 1 else s.maxInEnv) - overall.beingScaled;
                   (ToBeScaled(overall) == {} || |ToBeScaled(overall)| <= room) &&
                   ToBeScaled(overall) <= Wanted(rounds) &&
                   (ToBeScaled(overall) != Wanted(rounds) ==> |ToBeScaled(overall)| >= room)
  {
    hide ConcurrentSlice.Contents, ConcurrentSlice.Entries, UniqueKeys, Grouped, DecisionRight, DecisionsRight,
      EntriesRight, EntryRight, Proper, NextTally, Tallied, Underway, OwnOf, OwnNumbers, System.Run, AllRedirects,
      AllSeen, ViewsSeen, SoFar, IsRun, OneRoundEach, SeenSince, ToBeScaled, Wanted;
    overall, rounds, views := OverallNsInfo(map[], 0, 0), [], [];
    NothingSeen(p.start, p.log);
    if s.css.None? { return overall, false, rounds, views; }
    ghost var done := {};
    Beginning(groups, s);
    var todo := groups.Keys;
    while todo != {}
      invariant p.Valid() && (p.list.backing == old(p.list.backing) || fresh(p.list.backing))
      invariant SoFar(p.start, old(p.log), p.log, views)
      invariant Underway(overall, rounds, views, todo, done, groups, s)
      decreases |todo|
    {
      var namespaceKey :| namespaceKey in todo;
      ghost var given, log := overall, p.log;
      NextInLine(given, rounds, views, todo, done, groups, s, namespaceKey);
      ghost var round, v;
      overall, round, v := OneNamespace(namespaceKey, groups, s, p, overall);
      OneDone(given, rounds, views, todo, done, groups, s, overall, round, v);
      OneFurther(p.start, old(p.log), log, p.log, views, v);
      rounds, views := rounds + [round], views + [v];
      done, todo := done + {namespaceKey}, todo - {namespaceKey};
    }
    AllDone(overall, rounds, views, done, groups, s);
    SoFarMeans(p.start, old(p.log), p.log, views);
    LimitKept(overall, rounds, s);
    return overall, true, rounds, views;
  }

  /** What has been seen and done of the list since log0. */
  ghost predicate SoFar(start: System.Sys, log0: seq<Entry>, log: seq<Entry>, views: seq<View>) {
    log0 <= log && OwnOf(log) == OwnOf(log0) + AllRedirects(views) && ViewsSeen(start, log, |log0|, views)
  }

  lemma {:induction false} NothingSeen(start: System.Sys, log: seq<Entry>)
    ensures SoFar(start, log, log, []) && OwnOf(log) == OwnOf(log) + AllRedirects([])
  {
    hide OwnOf;
  }

  lemma {:induction false} OneFurther(
      start: System.Sys, log0: seq<Entry>, log: seq<Entry>, log': seq<Entry>, views: seq<View>, v: View)
    requires SoFar(start, log0, log, views) && log <= log' && OwnOf(log') == OwnOf(log) + v.redirects
    requires AllSeen(start, log', |log|, v.first) && AllSeen(start, log', |log|, v.later)
    ensures SoFar(start, log0, log', views + [v])
  {
    hide OwnOf, AllRedirects, ViewsSeen, AllSeen;
    RedirectsSnoc(views, v);
    OneMoreView(start, log, log', |log0|, views, v);
  }

  lemma {:induction false} SoFarMeans(start: System.Sys, log0: seq<Entry>, log: seq<Entry>, views: seq<View>)
    requires SoFar(start, log0, log, views)
    ensures log0 <= log && OwnOf(log) == OwnOf(log0) + AllRedirects(views) && ViewsSeen(start, log, |log0|, views)
  {
    hide OwnOf, AllRedirects, ViewsSeen;
  }

  function ToBeScaled(overall: OverallNsInfo): set<string> {
    set ns | ns in overall.info && overall.info[ns].scaleNamespace
  }

  lemma {:induction false} FlagsAreChosen(overall: OverallNsInfo)
    ensures ToBeScaled(overall) == Chosen(Flags(overall.info))
  {
  }

  /** The limit in the environment variable, or 1 when there is none, is what the namespaces chosen and those being
      scaled keep to; and whoever wanted and is not chosen finds no room left. */
  lemma {:induction false} LimitKept(overall: OverallNsInfo, rounds: seq<Round>, s: Surroundings)
    requires IsRun(overall, rounds, MaxConcurrent(s))
    ensures var room := (if s.maxInEnv == 0 then 1 else s.maxInEnv) - overall.beingScaled;
            (ToBeScaled(overall) == {} || |ToBeScaled(overall)| <= room) && ToBeScaled(overall) <= Wanted(rounds) &&
            (ToBeScaled(overall) != Wanted(rounds) ==> |ToBeScaled(overall)| >= room)
    ensures overall.beingScaled == |BusyRounds(rounds)|
  {
    hide Wanted, Recounts, ToBeScaled, HowMany, After, BusyRounds;
    ResultInBudget(overall, rounds, MaxConcurrent(s));
    BusyIsCounted(rounds, MaxConcurrent(s));
  }

  /** The budget of a run of the loop, in terms of its result. */
  lemma {:induction false} ResultInBudget(overall: OverallNsInfo, rounds: seq<Round>, max: int)
    requires IsRun(overall, rounds, max)
    ensures var chosen := ToBeScaled(overall);
            |chosen| <= Max0(max - overall.beingScaled) && chosen <= Wanted(rounds) &&
            (chosen != Wanted(rounds) ==> |chosen| == Max0(max - overall.beingScaled)) &&
            |chosen| == HowMany(Decisions(rounds), max) && |Wanted(rounds)| <= overall.toScale &&
            (overall.toScale - |chosen| > 0 <==> chosen != Wanted(rounds) || Recounts(rounds, max) > 0)
  {
    hide Flags, Chosen, After, Wanted, Recounts, ToBeScaled, HowMany;
    FlagsAreChosen(overall);
    BudgetHolds(rounds, max);
    CountIsOrderFree(rounds, max);
    RetriggerIff(rounds, max);
  }
}

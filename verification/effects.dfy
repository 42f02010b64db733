/** What reaching an item does, to the list and to the scalers, told outright; and what a running scaler makes of it. */
module Effects {
  import opened Items
  import opened DenyList
  import opened ScalerMachine
  import opened ScalerSafety
  import opened ScalerLimits
  import opened System
  import opened Interleaving

  /** A scaler about to begin on the item: in one go or by steps, towards the item's target. */
  ghost predicate Begins(sc: Scaler, item: ScalingInfo) {
    sc.item == item.(isBeingScaled := true) && sc.target == item.desired && sc.step == item.spec &&
    if item.kind.RedisCluster? ||
       ("scaler/rapid-scaling" in item.annotations &&
        item.annotations["scaler/rapid-scaling"] in ["1", "t", "T", "TRUE", "true", "True"])
    then sc.mode.Rapid? && sc.pc.RapidPut?
    else sc.mode.Step? && sc.pc.Head?
  }

  /** The list and the scalers after a new one has begun on the item. */
  ghost predicate Begun(sys: Sys, sys': Sys, id: nat, item: ScalingInfo) {
    sys'.sh == Shared(sys.sh.cluster, sys.sh.deny[KeyOf(item) := item.(isBeingScaled := true)]) &&
    sys'.scalers.Keys == sys.scalers.Keys + {id} && Begins(sys'.scalers[id], item) &&
    forall i :: i in sys.scalers ==> sys'.scalers[i] == sys.scalers[i]
  }

  lemma {:induction false} LaunchBegins(sys: Sys, id: nat, item: ScalingInfo)
    requires id !in sys.scalers
    ensures item.spec == item.desired && !item.failure ==> Launch(sys, id, item) == sys
    ensures item.spec != item.desired || item.failure ==> Begun(sys, Launch(sys, id, item), id, item)
  {
  }

  /** The namespace reconciler reaches an item. One that is where it should be, or has no target, is passed over; a
      listed one has the item's target on the list from then on; on any other a scaler begins. */
  lemma {:induction false} OnItemOfNamespace(sys: Sys, id: nat, item: ScalingInfo)
    requires id !in sys.scalers && Named(KeyOf(item))
    ensures var sys', k, deny := After(sys, ReconcileNs(id, item)), KeyOf(item), sys.sh.deny;
            if item.spec == item.desired || item.desired == -1 then sys' == sys
            else if k in deny then
              sys'.sh.deny == deny[k := deny[k].(desired := item.desired)] && sys'.sh.cluster == sys.sh.cluster &&
              sys'.scalers == sys.scalers
            else Begun(sys, sys', id, item)
  {
    hide Launch, Begun;
    LaunchBegins(sys, id, item);
    var k, deny := KeyOf(item), sys.sh.deny;
    if k in deny && deny[k].desired == item.desired { assert deny[k := deny[k].(desired := item.desired)] == deny; }
  }

  /** The single-item reconciler does the same, but that a listed item in failure state is scaled as the list has it. */
  lemma {:induction false} OnSingleItem(sys: Sys, id: nat, item: ScalingInfo)
    requires id !in sys.scalers && Named(KeyOf(item)) && WellKeyed(sys.sh.deny)
    ensures var sys', k, deny := After(sys, ReconcileItem(id, item)), KeyOf(item), sys.sh.deny;
            if item.desired == -1 || item.spec == item.ready == item.desired then sys' == sys
            else if k in deny && !deny[k].failure then
              sys'.sh.deny == deny[k := deny[k].(desired := item.desired)] && sys'.sh.cluster == sys.sh.cluster &&
              sys'.scalers == sys.scalers
            else if k in deny then Begun(sys, sys', id, deny[k])
            else if item.spec == item.desired && !item.failure then sys' == sys
            else Begun(sys, sys', id, item)
  {
    hide Launch, Begun;
    var k, deny := KeyOf(item), sys.sh.deny;
    LaunchBegins(sys, id, item);
    if k in deny {
      LaunchBegins(sys, id, deny[k]);
      if deny[k].desired == item.desired { assert deny[k := deny[k].(desired := item.desired)] == deny; }
    }
  }

  /** The reconciles that give a listed item of key k the target t. */
  ghost predicate Redirects(sys: Sys, ev: Event, k: Key, t: int) {
    match ev
    case ReconcileNs(id, item) =>
      id !in sys.scalers && KeyOf(item) == k && item.desired == t != -1 && item.spec != t
    case ReconcileItem(id, item) =>
      id !in sys.scalers && KeyOf(item) == k && item.desired == t != -1 && !(item.spec == item.ready == t) &&
      k in sys.sh.deny && !sys.sh.deny[k].failure
    case _ => false
  }

  /** A new target reaches the step scaler at work: whatever happens after the reconcile, as long as nobody changes the
      target again, opts the object out or deletes it, the scaler's next pass reads the item's target. */
  lemma {:induction false} NewTargetIsRead(sys: Sys, id: nat, k: Key, ev: Event, t: int, ms: seq<Move>)
    requires WellKeyed(sys.sh.deny) && Active(sys.scalers, id) && OwnItems(sys.scalers[id], k)
    requires k in sys.sh.deny && Live(sys.scalers[id].pc) && Redirects(sys, ev, k, t)
    requires forall i :: 0 <= i < |ms| ==> Quiet(ms[i], k)
    ensures var after := After(sys, ev);
            id in after.scalers && after.scalers[id] == sys.scalers[id] &&
            var w := Play(World(after.sh, after.scalers[id]), ms);
            Live(w.sc.pc) ==>
              k in w.sh.deny && w.sh.deny[k].desired == t && (w.sc.pc.Head? ==> Next(w, Go(Fine)).sc.target == t)
  {
    hide Begun, Launch, Play, Exec, OwnItems;
    assert Named(k) && KeyOf(sys.sh.deny[k]) == k;
    if ev.ReconcileNs? { OnItemOfNamespace(sys, ev.id, ev.item); } else { OnSingleItem(sys, ev.id, ev.item); }
    var w := World(sys.sh, sys.scalers[id]);
    RedirectSurvives(w, k, t, ms);
    assert World(After(sys, ev).sh, sys.scalers[id]) == w.(sh := EnvStep(w.sh, Retarget(k, t)));
  }
}

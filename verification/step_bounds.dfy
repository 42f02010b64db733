/** How far an object being scaled can still get in an interleaving once its step scaler has been redirected: not to the
    target the scaler was started with, but one replica on at most. */
module StepBounds {
  import opened Items
  import opened DenyList
  import opened ScalerMachine
  import opened ScalerSafety
  import opened ScalerProgress
  import opened ScalerLimits
  import opened System
  import opened Bounds
  import opened Interleaving

  /** The bounds that leave an object of key k at or below `top`; -1 is how the code says that there is no target. */
  function UpTo(k: Key, top: int): Hull {
    map[k := Span(-1, top)]
  }

  /** Scaler id is at work on k, alone, by steps, and does not get beyond `top`; nor below -1. */
  ghost predicate StepHeld(sys: Sys, id: nat, k: Key, top: int) {
    Alone(sys, id) && KeyOf(sys.scalers[id].item) == k &&
    HeldTo(true, sys.sh, sys.scalers[id], k, top) && HeldTo(false, sys.sh, sys.scalers[id], k, -1)
  }

  /** An event asks for nothing above `top` at k. */
  ghost predicate AsksUpTo(ev: Event, k: Key, top: int) {
    match ev
    case Turn(_, _) => true
    case Outside(e) => e.Retarget? && e.key == k ==> In(e.target, -1, top)
    case ReconcileNs(_, item) => CountsIn(item, UpTo(k, top))
    case ReconcileItem(_, item) => CountsIn(item, UpTo(k, top))
  }

  /** While scaler id is at work, no second one is started on k, and its target is not made undetermined. */
  ghost predicate Spares(sys: Sys, ev: Event, id: nat, k: Key) {
    Active(sys.scalers, id) ==> !Doubles(sys, ev, k) && ev != Outside(Retarget(k, -1))
  }

  /** What an event is to the scaler asks for nothing the event does not ask for. */
  lemma {:induction false} MovesAsk(sys: Sys, ev: Event, id: nat, k: Key, top: int)
    requires Alone(sys, id) && KeyOf(sys.scalers[id].item) == k && Possible(ev) && AsksUpTo(ev, k, top)
    requires !Doubles(sys, ev, k) && ev != Outside(Retarget(k, -1))
    ensures AsksNoFarther(true, MovesOf(sys, ev, id), k, top) && AsksNoFarther(false, MovesOf(sys, ev, id), k, -1)
  {
    hide AllOwn, WellKeyed, Alone, Doubles;
    EventProjects(sys, id, ev);
    if ev.ReconcileNs? || ev.ReconcileItem? {
      if ev.item.desired == -1 { NothingAsked(sys, ev); }
    }
    hide After;
  }

  lemma {:induction false} NothingAsked(sys: Sys, ev: Event)
    requires (ev.ReconcileNs? || ev.ReconcileItem?) && ev.item.desired == -1
    ensures After(sys, ev) == sys
  {
  }

  lemma {:induction false} StillHeld(sys: Sys, id: nat, k: Key, top: int, ev: Event)
    requires StepHeld(sys, id, k, top) && Possible(ev) && AsksUpTo(ev, k, top) && Spares(sys, ev, id, k)
    ensures id in After(sys, ev).scalers
    ensures var sys' := After(sys, ev);
            HeldTo(true, sys'.sh, sys'.scalers[id], k, top) && HeldTo(false, sys'.sh, sys'.scalers[id], k, -1)
  {
    hide HeldTo, After, Doubles, AllOwn, WellKeyed, MovesOf, Play, AsksNoFarther, AsksUpTo;
    var w := World(sys.sh, sys.scalers[id]);
    MovesAsk(sys, ev, id, k, top);
    EventProjects(sys, id, ev);
    HeldToRun(true, w, k, top, MovesOf(sys, ev, id));
    HeldToRun(false, w, k, -1, MovesOf(sys, ev, id));
  }

  /** The step that ends a scaler alone on its key leaves nothing on the list and no scaler there. */
  lemma {:induction false} NobodyLeft(sys: Sys, id: nat, ev: Event)
    requires Alone(sys, id) && Possible(ev) && !Active(After(sys, ev).scalers, id)
    ensures var k, sys' := KeyOf(sys.scalers[id].item), After(sys, ev);
            k !in sys'.sh.deny && forall j :: Active(sys'.scalers, j) ==> KeyOf(sys'.scalers[j].item) != k
  {
    hide Exec, AllOwn, WellKeyed;
    var sc := sys.scalers[id];
    if !ev.Turn? { ScalerStays(sys, ev, id); }
    assert ev.Turn? && ev.id == id;
    ReleaseOnExit(sys.sh, sc, ev.out);
    forall j | Active(After(sys, ev).scalers, j) ensures KeyOf(After(sys, ev).scalers[j].item) != KeyOf(sc.item) {
      assert j != id && After(sys, ev).scalers[j] == sys.scalers[j];
    }
  }

  ghost predicate KeptUpTo(sys: Sys, id: nat, k: Key, top: int) {
    StepHeld(sys, id, k, top) || Hulled(sys, UpTo(k, top))
  }

  lemma {:induction false} EndsHulled(sys: Sys, id: nat, k: Key, top: int, ev: Event)
    requires StepHeld(sys, id, k, top) && Possible(ev) && !Active(After(sys, ev).scalers, id)
    requires id in After(sys, ev).scalers
    requires var sys' := After(sys, ev);
             HeldTo(true, sys'.sh, sys'.scalers[id], k, top) && HeldTo(false, sys'.sh, sys'.scalers[id], k, -1)
    ensures Hulled(After(sys, ev), UpTo(k, top))
  {
    var sys' := After(sys, ev);
    HeldToSpec(true, World(sys'.sh, sys'.scalers[id]), k, top);
    HeldToSpec(false, World(sys'.sh, sys'.scalers[id]), k, -1);
    assert Named(k) by { hide After; }
    StaysKeyed(sys, ev);
    NobodyLeft(sys, id, ev);
    hide After, HeldTo, AllOwn, WellKeyed, ScalerWithin;
  }

  lemma {:induction false} KeptUpToNext(sys: Sys, id: nat, k: Key, top: int, ev: Event)
    requires KeptUpTo(sys, id, k, top) && top >= 0
    requires Possible(ev) && AsksUpTo(ev, k, top) && Spares(sys, ev, id, k)
    ensures KeptUpTo(After(sys, ev), id, k, top)
  {
    hide HeldTo, After, Doubles, Alone, Hulled;
    if StepHeld(sys, id, k, top) {
      assert Active(sys.scalers, id) by { AloneIsActive(sys, id); }
      StillHeld(sys, id, k, top, ev);
      if Active(After(sys, ev).scalers, id) {
        AloneIff(sys, id, ev);
        SameKey(sys, id, ev);
      } else {
        EndsHulled(sys, id, k, top, ev);
      }
    } else {
      AskedWithin(sys, ev, k, top);
      HulledAfter(sys, ev, UpTo(k, top));
    }
  }

  lemma {:induction false} AloneIsActive(sys: Sys, id: nat)
    requires Alone(sys, id)
    ensures Active(sys.scalers, id)
  {
  }

  lemma {:induction false} SameKey(sys: Sys, id: nat, ev: Event)
    requires Alone(sys, id) && Active(After(sys, ev).scalers, id)
    ensures KeyOf(After(sys, ev).scalers[id].item) == KeyOf(sys.scalers[id].item)
  {
    hide After;
    if ev.Turn? || ev.Outside? { KeysStay(sys, ev, id); } else { ScalerStays(sys, ev, id); }
  }

  lemma {:induction false} HulledAt(sys: Sys, k: Key, top: int)
    requires Hulled(sys, UpTo(k, top))
    ensures KeyWithin(sys.sh, k, -1, top)
  {
    hide ScalersHulled, AllOwn, WellKeyed, KeyWithin;
    assert k in UpTo(k, top) && UpTo(k, top)[k] == Span(-1, top);
  }

  /** Whatever is on the list of k may be restarted. */
  lemma {:induction false} AskedWithin(sys: Sys, ev: Event, k: Key, top: int)
    requires Hulled(sys, UpTo(k, top)) && AsksUpTo(ev, k, top) && top >= 0
    ensures Allowed(sys, ev, UpTo(k, top))
  {
    hide ScalersHulled, AllOwn, WellKeyed;
    HulledAt(sys, k, top);
    if ev.ReconcileItem? && KeyOf(ev.item) in sys.sh.deny {
      ListedKey(sys, UpTo(k, top), KeyOf(ev.item));
    }
  }

  ghost predicate SparesAll(sys: Sys, evs: seq<Event>, id: nat, k: Key) {
    forall i :: 0 <= i < |evs| ==> Spares(Run(sys, evs[..i]), evs[i], id, k)
  }

  /** Over whole runs of any number of scalers and reconciles: as long as nobody asks for more than `top`, the object
      stays at or below it, through the run of the scaler at work on it and of those that come after. */
  lemma {:induction false} KeptUpToRun(sys: Sys, id: nat, k: Key, top: int, evs: seq<Event>)
    requires KeptUpTo(sys, id, k, top) && top >= 0 && SparesAll(sys, evs, id, k)
    requires forall i :: 0 <= i < |evs| ==> Possible(evs[i]) && AsksUpTo(evs[i], k, top)
    ensures KeptUpTo(Run(sys, evs), id, k, top)
    ensures k in Run(sys, evs).sh.cluster ==> Run(sys, evs).sh.cluster[k].spec <= top
  {
    hide KeptUpTo, After, Spares, Possible, AsksUpTo;
    if evs != [] {
      var n := |evs| - 1;
      var before := evs[..n];
      assert forall i :: 0 <= i < n ==> before[..i] == evs[..i] && before[i] == evs[i];
      KeptUpToRun(sys, id, k, top, before);
      assert Spares(Run(sys, before), evs[n], id, k);
      KeptUpToNext(Run(sys, before), id, k, top, evs[n]);
    }
    KeptSpec(Run(sys, evs), id, k, top);
  }

  lemma {:induction false} KeptSpec(sys: Sys, id: nat, k: Key, top: int)
    requires KeptUpTo(sys, id, k, top)
    ensures k in sys.sh.cluster ==> sys.sh.cluster[k].spec <= top
  {
    hide AllOwn, WellKeyed, ScalersHulled;
    if Hulled(sys, UpTo(k, top)) { HulledAt(sys, k, top); }
    else { HeldToSpec(true, World(sys.sh, sys.scalers[id]), k, top); }
  }

  /** A step scaler at work that has been redirected to t can get one replica on from where it is, or to t; what target
      it was started with is of no account. */
  lemma {:induction false} RedirectedIsHeld(sys: Sys, id: nat, t: int)
    requires Alone(sys, id) && t >= 0
    requires var sc, k := sys.scalers[id], KeyOf(sys.scalers[id].item);
             OneStep(sys.sh, sc, k) && Looping(sc.pc) && k in sys.sh.cluster && sys.sh.cluster[k].spec >= 0 &&
             k in sys.sh.deny && (Blank(sys.sh.deny[k]) || sys.sh.deny[k].desired == t)
    ensures var k := KeyOf(sys.scalers[id].item); StepHeld(sys, id, k, Max(t, sys.sh.cluster[k].spec + 1))
  {
    var sc, k := sys.scalers[id], KeyOf(sys.scalers[id].item);
    HeldToReach(true, sys.sh, sc, k, t);
    HeldToReach(false, sys.sh, sc, k, t);
    hide OneStep, Alone;
    HeldDown(sys.sh, sc, k, Reach(false, sys.sh.cluster[k].spec, t), -1);
  }

  lemma {:induction false} HeldDown(sh: Shared, sc: Scaler, k: Key, limit: int, lower: int)
    requires HeldTo(false, sh, sc, k, limit) && lower <= limit
    ensures HeldTo(false, sh, sc, k, lower)
  {
    hide OneStep;
  }
}

/** Bounds on the counts of some objects that hold in every interleaving of any number of scalers and reconciles. */
module Bounds {
  import opened Items
  import opened DenyList
  import opened ScalerMachine
  import opened ScalerSafety
  import opened System

  datatype Span = Span(lo: int, hi: int)

  /** Bounds for some objects. */
  type Hull = map<Key, Span>

  ghost predicate SpannedBy(sc: Scaler, h: Hull) {
    var k := KeyOf(sc.item);
    k in h ==> ScalerWithin(sc, h[k].lo, h[k].hi)
  }

  ghost predicate ScalersHulled(scalers: map<nat, Scaler>, h: Hull) {
    forall id :: Active(scalers, id) ==> SpannedBy(scalers[id], h)
  }

  ghost predicate SharedHulled(sh: Shared, h: Hull) {
    forall k :: k in h ==> Named(k) && KeyWithin(sh, k, h[k].lo, h[k].hi)
  }

  /** Every count of the objects, of their list entries and of their scalers at work lies within its bounds. */
  ghost predicate Hulled(sys: Sys, h: Hull) {
    WellKeyed(sys.sh.deny) && AllOwn(sys.scalers) && ScalersHulled(sys.scalers, h) && SharedHulled(sys.sh, h)
  }

  predicate CountsIn(item: ScalingInfo, h: Hull) {
    var k := KeyOf(item);
    k in h ==> In(item.spec, h[k].lo, h[k].hi) && In(item.desired, h[k].lo, h[k].hi)
  }

  /** What an event may ask for: targets within the bounds, items within the bounds, and restarts from a failed entry
      only if that is within them too. Anything may happen to other keys, and the objects may fail, be opted out or
      deleted. */
  ghost predicate Allowed(sys: Sys, ev: Event, h: Hull) {
    match ev
    case Turn(_, _) => true
    case Outside(e) => e.Retarget? && e.key in h ==> Target(e.target, h[e.key].lo, h[e.key].hi)
    case ReconcileNs(_, item) => CountsIn(item, h)
    case ReconcileItem(_, item) =>
      CountsIn(item, h) &&
      (KeyOf(item) in sys.sh.deny && sys.sh.deny[KeyOf(item)].failure ==> CountsIn(sys.sh.deny[KeyOf(item)], h))
  }

  lemma {:induction false} ScalerUpdate(scalers: map<nat, Scaler>, h: Hull, id: nat, sc: Scaler)
    requires AllOwn(scalers) && ScalersHulled(scalers, h)
    requires !sc.pc.Finished? ==> OwnItems(sc, KeyOf(sc.item)) && SpannedBy(sc, h)
    ensures AllOwn(scalers[id := sc]) && ScalersHulled(scalers[id := sc], h)
  {
    hide OwnItems, SpannedBy;
    assert forall i :: i != id && Active(scalers[id := sc], i) ==> Active(scalers, i);
  }

  ghost predicate SameButAt(sh: Shared, sh': Shared, k: Key) {
    forall q :: q != k ==>
      (q in sh'.cluster <==> q in sh.cluster) && (q in sh.cluster ==> sh'.cluster[q] == sh.cluster[q]) &&
      (q in sh'.deny <==> q in sh.deny) && (q in sh.deny ==> sh'.deny[q] == sh.deny[q])
  }

  lemma {:induction false} OnlyOwnKey(sh: Shared, sc: Scaler, k: Key, out: Outcome)
    requires WellKeyed(sh.deny) && OwnItems(sc, k)
    ensures var sh' := Exec(sh, sc, out).0;
            WellKeyed(sh'.deny) && SameButAt(sh, sh', k)
  {
    hide Exec, PcKeyed;
    var sh' := Exec(sh, sc, out).0;
    KeyedExec(sh, sc, k, out);
    assert ZERO_KEY !in sh.deny;
    NothingNameless(sh, sc, k, out);
    forall q | q != k
      ensures (q in sh'.cluster <==> q in sh.cluster) && (q in sh.cluster ==> sh'.cluster[q] == sh.cluster[q]) &&
              (q in sh'.deny <==> q in sh.deny) && (q in sh.deny ==> sh'.deny[q] == sh.deny[q])
    {
      StepFrame(sh, sc, k, out, q);
    }
  }

  lemma {:induction false} OwnWithin(sh: Shared, sc: Scaler, k: Key, out: Outcome, h: Hull)
    requires WellKeyed(sh.deny) && OwnItems(sc, k) && SharedHulled(sh, h) && k in h &&
             ScalerWithin(sc, h[k].lo, h[k].hi)
    ensures var (sh', sc') := Exec(sh, sc, out);
            ScalerWithin(sc', h[k].lo, h[k].hi) && KeyWithin(sh', k, h[k].lo, h[k].hi)
  {
    hide Exec, PcKeyed, ScalerWithin, KeyWithin;
    WithinExec(sh, sc, k, h[k].lo, h[k].hi, out);
  }

  lemma {:induction false} OthersHulled(sh: Shared, sh': Shared, k: Key, h: Hull)
    requires SharedHulled(sh, h) && SameButAt(sh, sh', k)
    requires k in h ==> KeyWithin(sh', k, h[k].lo, h[k].hi)
    ensures SharedHulled(sh', h)
  {
    hide In, ItemWithin;
  }

  /** A scaler's step changes its own object and entry, within their bounds, and no other of a named key. */
  lemma {:induction false} StepWithin(sh: Shared, sc: Scaler, k: Key, out: Outcome, h: Hull)
    requires WellKeyed(sh.deny) && OwnItems(sc, k) && SharedHulled(sh, h) && SpannedBy(sc, h)
    ensures var (sh', sc') := Exec(sh, sc, out);
            WellKeyed(sh'.deny) && OwnItems(sc', k) && sc'.item == sc.item && SharedHulled(sh', h) && SpannedBy(sc', h)
  {
    hide Exec, PcKeyed, ScalerWithin, SharedHulled, WellKeyed;
    var (sh', sc') := Exec(sh, sc, out);
    OwnStays(sh, sc, k, out);
    OnlyOwnKey(sh, sc, k, out);
    if k in h { OwnWithin(sh, sc, k, out, h); }
    OthersHulled(sh, sh', k, h);
  }

  lemma {:induction false} OwnStays(sh: Shared, sc: Scaler, k: Key, out: Outcome)
    requires WellKeyed(sh.deny) && OwnItems(sc, k)
    ensures OwnItems(Exec(sh, sc, out).1, k) && Exec(sh, sc, out).1.item == sc.item
  {
    hide Exec, PcKeyed;
    KeyedExec(sh, sc, k, out);
    SameItem(World(sh, sc), [Go(out)]);
    PlayOne(World(sh, sc), Go(out));
  }

  /** A scaler starts within the bounds if and only if both counts of its item are. */
  lemma {:induction false} FreshWithin(item: ScalingInfo, a: int, b: int)
    ensures ScalerWithin(Fresh(item), a, b) <==> In(item.spec, a, b) && In(item.desired, a, b)
  {
    hide RapidScaling;
  }

  lemma {:induction false} EnvHulled(sh: Shared, e: EnvMove, h: Hull)
    requires WellKeyed(sh.deny) && SharedHulled(sh, h) && !e.Foreign?
    requires e.Retarget? && e.key in h ==> Target(e.target, h[e.key].lo, h[e.key].hi)
    ensures WellKeyed(EnvStep(sh, e).deny) && SharedHulled(EnvStep(sh, e), h)
  {
    hide OptedIn, In;
  }

  lemma {:induction false} LaunchHulled(sys: Sys, id: nat, item: ScalingInfo, h: Hull)
    requires Hulled(sys, h) && Named(KeyOf(item)) && CountsIn(item, h)
    ensures Hulled(Launch(sys, id, item), h)
  {
    hide Fresh, OwnItems, ScalerWithin, In, AllOwn, ScalersHulled, Target, Was;
    var k := KeyOf(item);
    FreshIsOwn(item);
    if k in h { FreshWithin(item, h[k].lo, h[k].hi); ItemIsWithin(item, h[k].lo, h[k].hi); }
    ScalerUpdate(sys.scalers, h, id, Fresh(item));
  }

  lemma {:induction false} ItemIsWithin(item: ScalingInfo, a: int, b: int)
    ensures In(item.spec, a, b) && In(item.desired, a, b) ==> ItemWithin(item, a, b)
  {
  }

  lemma {:induction false} ReconcileHulled(sys: Sys, ev: Event, h: Hull)
    requires Hulled(sys, h) && Possible(ev) && Allowed(sys, ev, h) && (ev.ReconcileNs? || ev.ReconcileItem?)
    ensures Hulled(After(sys, ev), h)
  {
    hide EnvStep, Launch, ScalersHulled, SharedHulled, AllOwn, WellKeyed, In;
    var item := ev.item;
    var k := KeyOf(item);
    if k in sys.sh.deny { ListedKey(sys, h, k); }
    var listed := Lookup(sys.sh.deny, item).0;
    if k !in sys.sh.deny || (ev.ReconcileItem? && listed.failure) { LaunchHulled(sys, ev.id, listed, h); }
    EnvHulled(sys.sh, Retarget(k, item.desired), h);
  }

  lemma {:induction false} ListedKey(sys: Sys, h: Hull, k: Key)
    requires Hulled(sys, h) && k in sys.sh.deny
    ensures KeyOf(sys.sh.deny[k]) == k && Named(k)
  {
    hide SharedHulled, ScalersHulled, AllOwn;
  }

  lemma {:induction false} TurnHulled(sys: Sys, id: nat, out: Outcome, h: Hull)
    requires Hulled(sys, h) && Active(sys.scalers, id)
    ensures Hulled(After(sys, Turn(id, out)), h)
  {
    hide Exec, OwnItems, SpannedBy, SharedHulled, WellKeyed;
    var sc := sys.scalers[id];
    StepWithin(sys.sh, sc, KeyOf(sc.item), out, h);
    ScalerUpdate(sys.scalers, h, id, Exec(sys.sh, sc, out).1);
  }

  lemma {:induction false} HulledAfter(sys: Sys, ev: Event, h: Hull)
    requires Hulled(sys, h) && Possible(ev) && Allowed(sys, ev, h)
    ensures Hulled(After(sys, ev), h)
  {
    match ev
    case Turn(id, out) =>
      hide Hulled, Exec;
      if Active(sys.scalers, id) { TurnHulled(sys, id, out, h); } else { FinishedStays(sys, id, out); }
    case Outside(e) =>
      hide EnvStep, SharedHulled, WellKeyed;
      EnvHulled(sys.sh, e, h);
    case _ => ReconcileHulled(sys, ev, h);
  }

  ghost predicate AllAllowed(sys: Sys, evs: seq<Event>, h: Hull) {
    forall i :: 0 <= i < |evs| ==> Possible(evs[i]) && Allowed(Run(sys, evs[..i]), evs[i], h)
  }

  lemma {:induction false} HulledRun(sys: Sys, evs: seq<Event>, h: Hull)
    requires Hulled(sys, h) && AllAllowed(sys, evs, h)
    ensures Hulled(Run(sys, evs), h)
  {
    hide Hulled, After, Allowed, Possible;
    if evs != [] {
      var before := evs[..|evs| - 1];
      assert forall i :: 0 <= i < |before| ==> before[..i] == evs[..i] && before[i] == evs[i];
      HulledRun(sys, before, h);
      HulledAfter(Run(sys, before), evs[|evs| - 1], h);
    }
  }

  /** A restart from a failed entry keeps all counts within their bounds if and only if the entry's are: an entry an
      opt-out has blanked, of spec 0 and without a target, need not be. */
  lemma {:induction false} RestartIff(sys: Sys, id: nat, item: ScalingInfo, h: Hull)
    requires Hulled(sys, h) && Named(KeyOf(item)) && KeyOf(item) in h && CountsIn(item, h)
    requires KeyOf(item) in sys.sh.deny && sys.sh.deny[KeyOf(item)].failure && id !in sys.scalers
    requires item.desired != -1 && !(item.ready == item.desired && item.spec == item.desired)
    ensures Hulled(After(sys, ReconcileItem(id, item)), h) <==> CountsIn(sys.sh.deny[KeyOf(item)], h)
  {
    hide EnvStep, Fresh, ScalerWithin, SharedHulled, WellKeyed, OwnItems, In;
    var k, ev := KeyOf(item), ReconcileItem(id, item);
    var entry := sys.sh.deny[k];
    ListedKey(sys, h, k);
    FreshIsOwn(entry);
    FreshWithin(entry, h[k].lo, h[k].hi);
    var after := After(sys, ev);
    assert after == Launch(sys, id, entry) && after.scalers[id] == Fresh(entry) && Active(after.scalers, id);
    if CountsIn(entry, h) { LaunchHulled(sys, id, entry, h); }
  }
}

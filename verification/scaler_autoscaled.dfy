/** Objects that are autoscaled: no scaler, rapid or step, ever takes one down. */
module ScalerAutoscaled {
  import opened Items
  import opened DenyList
  import opened ScalerMachine
  import opened ScalerSafety
  import opened ScalerRapid

  /** The object is not below `floor`, and whatever is about to be written is above it. */
  ghost predicate NotBelow(sh: Shared, sc: Scaler, k: Key, floor: int) {
    Keyed(sh, sc, k) &&
    (k in sh.cluster ==>
      sh.cluster[k].spec >= floor && "scaler/allow-autoscaling" in sh.cluster[k].annotations &&
      sh.cluster[k].annotations["scaler/allow-autoscaling"] == "true") &&
    match sc.pc
    case Attempt(_, r, _) => r > floor
    case Write(_, _, r, _) => r > floor
    case _ => true
  }

  lemma {:induction false} NotBelowPolled(sh: Shared, sc: Scaler, k: Key, floor: int, r: (Shared, Option<ScalingInfo>))
    requires NotBelow(sh, sc, k, floor) && sc.pc.Poll? && RefreshedOn(k, sh, sc.pc.item, r)
    ensures NotBelow(Polled(sc, r).0, Polled(sc, r).1, k, floor)
  {
    hide PcKeyed;
    KeyedRefresh(sh, sc, k, r);
  }

  lemma {:induction false} NotBelowAttempted(
      sh: Shared, sc: Scaler, k: Key, floor: int, r: (Shared, Option<ScalingInfo>))
    requires NotBelow(sh, sc, k, floor) && sc.pc.Attempt? && RefreshedOn(k, sh, sc.pc.item, r)
    ensures NotBelow(Attempted(sc, r).0, Attempted(sc, r).1, k, floor)
  {
    hide OptedIn, PcKeyed;
    KeyedRefresh(sh, sc, k, r);
  }

  lemma {:induction false} NotBelowLocal(sh: Shared, sc: Scaler, k: Key, floor: int, out: Outcome)
    requires NotBelow(sh, sc, k, floor) && !sc.pc.Poll? && !sc.pc.Attempt? && !sc.pc.Write?
    ensures NotBelow(Exec(sh, sc, out).0, Exec(sh, sc, out).1, k, floor)
  {
    hide ExecPoll, ExecAttempt, ExecWrite;
    KeyedExec(sh, sc, k, out);
    hide Keyed;
  }

  lemma {:induction false} NotBelowWritten(sh: Shared, sc: Scaler, k: Key, floor: int, out: Outcome)
    requires NotBelow(sh, sc, k, floor) && sc.pc.Write?
    ensures NotBelow(ExecWrite(sh, sc, out).0, ExecWrite(sh, sc, out).1, k, floor)
  {
    KeyedExec(sh, sc, k, out);
    assert KeyOf(sc.pc.latest) == k;
    hide Keyed;
  }

  lemma {:induction false} NotBelowExec(sh: Shared, sc: Scaler, k: Key, floor: int, out: Outcome)
    requires NotBelow(sh, sc, k, floor)
    ensures NotBelow(Exec(sh, sc, out).0, Exec(sh, sc, out).1, k, floor)
  {
    hide Refresh, Polled, Attempted, ExecWrite, ExecHead;
    if sc.pc.Poll? || sc.pc.Attempt? {
      KeyedExec(sh, sc, k, out);
      var r := Refresh(sh, sc.pc.item, !out.GetFails?);
      RefreshFacts(k, sh, sc.pc.item, !out.GetFails?);
      if sc.pc.Attempt? { NotBelowAttempted(sh, sc, k, floor, r); }
      else if !out.TimeoutFires? { NotBelowPolled(sh, sc, k, floor, r); }
    } else if sc.pc.Write? {
      NotBelowWritten(sh, sc, k, floor, out);
    } else {
      NotBelowLocal(sh, sc, k, floor, out);
    }
  }

  lemma {:induction false} NotBelowEnv(sh: Shared, sc: Scaler, k: Key, floor: int, e: EnvMove)
    requires NotBelow(sh, sc, k, floor) && (e.Foreign? ==> e.key != k)
    ensures NotBelow(EnvStep(sh, e), sc, k, floor)
  {
    hide OptedIn;
    KeyedEnv(sh, sc, k, e);
  }

  /** In every run, whatever the target, the redirects and the item handed over: an object that allows autoscaling never
      has fewer replicas than it had when the scaler started. */
  lemma {:induction false} NeverTakenDown(sh: Shared, item: ScalingInfo, ms: seq<Move>)
    requires Named(KeyOf(item)) && OthersKeepOff(KeyOf(item), ms) && KeyOf(item) in sh.cluster
    requires "scaler/allow-autoscaling" in sh.cluster[KeyOf(item)].annotations
    requires sh.cluster[KeyOf(item)].annotations["scaler/allow-autoscaling"] == "true"
    ensures var w, k := Play(Started(sh, item), ms), KeyOf(item);
            NotBelow(w.sh, w.sc, k, sh.cluster[k].spec) &&
            (k in w.sh.cluster ==> w.sh.cluster[k].spec >= sh.cluster[k].spec)
  {
    hide Exec, EnvStep, RapidScaling;
    if ms != [] {
      var before, m := ms[..|ms| - 1], ms[|ms| - 1];
      assert forall i :: 0 <= i < |before| ==> before[i] == ms[i];
      NeverTakenDown(sh, item, before);
      var w := Play(Started(sh, item), before);
      var floor := sh.cluster[KeyOf(item)].spec;
      hide Started;
      if m.Go? { NotBelowExec(w.sh, w.sc, KeyOf(item), floor, m.out); }
      else { NotBelowEnv(w.sh, w.sc, KeyOf(item), floor, m.e); }
    }
  }

  lemma {:induction false} NothingPending(sh: Shared, sc: Scaler, k: Key, floor: int, t: int)
    requires NotBelow(sh, sc, k, floor) && BoundFor(sh, sc, k, t) && t <= floor
    ensures !sc.pc.Attempt? && !sc.pc.Write?
  {
    hide AllowsAutoscaling, PcKeyed, ReachedOrHeldBack;
  }

  lemma {:induction false} DecideKeepsSpecs(sc: Scaler, item: ScalingInfo)
    ensures Decide(sc, item).specs == sc.specs
  {
    hide AllowsAutoscaling;
  }

  lemma {:induction false} RefreshKeepsCluster(sh: Shared, info: ScalingInfo, getOk: bool)
    ensures Refresh(sh, info, getOk).0.cluster == sh.cluster
  {
  }

  lemma {:induction false} OnlyWritesWrite(sh: Shared, sc: Scaler, out: Outcome)
    requires !sc.pc.Write?
    ensures Exec(sh, sc, out).1.specs == sc.specs && Exec(sh, sc, out).0.cluster == sh.cluster
  {
    hide Refresh, Decide, OptedIn;
    if sc.pc.Poll? || sc.pc.Attempt? {
      RefreshKeepsCluster(sh, sc.pc.item, !out.GetFails?);
      var r := Refresh(sh, sc.pc.item, !out.GetFails?).1;
      if r.Some? { DecideKeepsSpecs(sc, r.value); }
    }
  }

  lemma {:induction false} NothingWritten(w: World, m: Move, k: Key)
    requires !w.sc.pc.Write? && (m.Env? && m.e.Foreign? ==> m.e.key != k)
    ensures Next(w, m).sc.specs == w.sc.specs
    ensures k in Next(w, m).sh.cluster ==> k in w.sh.cluster && Next(w, m).sh.cluster[k].spec == w.sh.cluster[k].spec
  {
    hide Exec, OptedIn;
    if m.Go? { OnlyWritesWrite(w.sh, w.sc, m.out); }
  }

  /** A rapid scaler whose target is not above what an autoscaled object has writes nothing at all. */
  lemma {:induction false} RapidHeldBack(sh: Shared, item: ScalingInfo, ms: seq<Move>)
    requires Named(KeyOf(item)) && OthersKeepOff(KeyOf(item), ms) && KeyOf(item) in sh.cluster
    requires "scaler/allow-autoscaling" in sh.cluster[KeyOf(item)].annotations
    requires sh.cluster[KeyOf(item)].annotations["scaler/allow-autoscaling"] == "true"
    requires RapidScaling(item) && item.desired <= sh.cluster[KeyOf(item)].spec
    ensures var w, k := Play(Started(sh, item), ms), KeyOf(item);
            w.sc.specs == [item.spec] && (k in w.sh.cluster ==> w.sh.cluster[k].spec == sh.cluster[k].spec)
  {
    hide Exec, EnvStep, Next, RapidScaling;
    if ms != [] {
      var before, m := ms[..|ms| - 1], ms[|ms| - 1];
      assert forall i :: 0 <= i < |before| ==> before[i] == ms[i];
      RapidHeldBack(sh, item, before);
      NeverTakenDown(sh, item, before);
      RapidRun(sh, item, before);
      var w := Play(Started(sh, item), before);
      hide Started;
      NothingPending(w.sh, w.sc, KeyOf(item), sh.cluster[KeyOf(item)].spec, item.desired);
      NothingWritten(w, m, KeyOf(item));
    }
  }
}

/** What a rapid scaler achieves. It reads its target once, when it is started: no redirect ever reaches it. */
module ScalerRapid {
  import opened Items
  import opened DenyList
  import opened ScalerMachine
  import opened ScalerSafety

  /** The spec is t, or allow-autoscaling holds it back from coming down to t. */
  predicate ReachedOrHeldBack(sh: Shared, k: Key, t: int) {
    k in sh.cluster ==>
      sh.cluster[k].spec == t || (AllowsAutoscaling(sh.cluster[k].annotations) && t < sh.cluster[k].spec)
  }

  ghost predicate RapidPc(sh: Shared, sc: Scaler, k: Key, t: int) {
    match sc.pc
    case Head => false
    case Attempt(_, r, _) => r == t
    case Write(_, _, r, _) => r == t
    case Release(ok) => ok ==> ReachedOrHeldBack(sh, k, t)
    case Finished(ok) => ok ==> ReachedOrHeldBack(sh, k, t)
    case _ => true
  }

  ghost predicate BoundFor(sh: Shared, sc: Scaler, k: Key, t: int) {
    Keyed(sh, sc, k) && sc.mode.Rapid? && sc.target == t && RapidPc(sh, sc, k, t)
  }

  lemma {:induction false} BoundForPolled(sh: Shared, sc: Scaler, k: Key, t: int, r: (Shared, Option<ScalingInfo>))
    requires BoundFor(sh, sc, k, t) && sc.pc.Poll? && RefreshedOn(k, sh, sc.pc.item, r)
    ensures BoundFor(Polled(sc, r).0, Polled(sc, r).1, k, t)
  {
    hide AllowsAutoscaling, PcKeyed;
    KeyedRefresh(sh, sc, k, r);
  }

  lemma {:induction false} BoundForAttempted(sh: Shared, sc: Scaler, k: Key, t: int, r: (Shared, Option<ScalingInfo>))
    requires BoundFor(sh, sc, k, t) && sc.pc.Attempt? && RefreshedOn(k, sh, sc.pc.item, r)
    ensures BoundFor(Attempted(sc, r).0, Attempted(sc, r).1, k, t)
  {
    hide OptedIn, PcKeyed, ReachedOrHeldBack;
    KeyedRefresh(sh, sc, k, r);
  }

  lemma {:induction false} BoundForLocal(sh: Shared, sc: Scaler, k: Key, t: int, out: Outcome)
    requires BoundFor(sh, sc, k, t) && !sc.pc.Poll? && !sc.pc.Attempt?
    ensures BoundFor(Exec(sh, sc, out).0, Exec(sh, sc, out).1, k, t)
  {
    hide ExecPoll, ExecAttempt, AllowsAutoscaling;
    KeyedExec(sh, sc, k, out);
  }

  lemma {:induction false} BoundForExec(sh: Shared, sc: Scaler, k: Key, t: int, out: Outcome)
    requires BoundFor(sh, sc, k, t)
    ensures BoundFor(Exec(sh, sc, out).0, Exec(sh, sc, out).1, k, t)
  {
    hide Refresh, Polled, Attempted, ExecWrite, ExecHead, AllowsAutoscaling, ReachedOrHeldBack;
    if sc.pc.Poll? || sc.pc.Attempt? {
      KeyedExec(sh, sc, k, out);
      var r := Refresh(sh, sc.pc.item, !out.GetFails?);
      RefreshFacts(k, sh, sc.pc.item, !out.GetFails?);
      if sc.pc.Attempt? { BoundForAttempted(sh, sc, k, t, r); }
      else if !out.TimeoutFires? { BoundForPolled(sh, sc, k, t, r); }
    } else {
      BoundForLocal(sh, sc, k, t, out);
    }
  }

  lemma {:induction false} BoundForEnv(sh: Shared, sc: Scaler, k: Key, t: int, e: EnvMove)
    requires BoundFor(sh, sc, k, t) && (e.Foreign? ==> e.key != k)
    ensures BoundFor(EnvStep(sh, e), sc, k, t)
  {
    hide AllowsAutoscaling, OptedIn;
    KeyedEnv(sh, sc, k, e);
  }

  /** A rapid scaler that ends well has written the target it was started with, whatever the redirects, opt-outs and
      failures of the run; or allow-autoscaling kept it from scaling down. */
  lemma {:induction false} RapidRun(sh: Shared, item: ScalingInfo, ms: seq<Move>)
    requires Named(KeyOf(item)) && RapidScaling(item) && OthersKeepOff(KeyOf(item), ms)
    ensures var w, k := Play(Started(sh, item), ms), KeyOf(item);
            BoundFor(w.sh, w.sc, k, item.desired) &&
            (w.sc.pc == Release(true) || w.sc.pc == Finished(true) ==> ReachedOrHeldBack(w.sh, k, item.desired))
  {
    hide Exec, EnvStep, AllowsAutoscaling, ReachedOrHeldBack;
    if ms != [] {
      var before, m := ms[..|ms| - 1], ms[|ms| - 1];
      assert forall i :: 0 <= i < |before| ==> before[i] == ms[i];
      RapidRun(sh, item, before);
      var w := Play(Started(sh, item), before);
      if m.Go? { BoundForExec(w.sh, w.sc, KeyOf(item), item.desired, m.out); }
      else { BoundForEnv(w.sh, w.sc, KeyOf(item), item.desired, m.e); }
    }
  }
}

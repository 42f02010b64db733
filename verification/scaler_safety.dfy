/** What a scaler keeps in every run, whatever the environment does: it stays between the numbers it was given, and
    a step scaler moves one replica at a time. */
module ScalerSafety {
  import opened Items
  import opened DenyList
  import opened ScalerMachine

  ghost predicate PcKeyed(pc: Pc, k: Key) {
    match pc
    case Poll(item, _, _) => KeyOf(item) == k
    case Attempt(item, _, _) => KeyOf(item) == k
    case Write(item, latest, _, _) => KeyOf(item) == k && KeyOf(latest) == k
    case Mark(item, _, _) => KeyOf(item) == k
    case _ => true
  }

  /** Every item the scaler holds is its own. */
  ghost predicate OwnItems(sc: Scaler, k: Key) {
    Named(k) && KeyOf(sc.item) == k && KeyOf(sc.outer) == k && PcKeyed(sc.pc, k)
  }

  ghost predicate Keyed(sh: Shared, sc: Scaler, k: Key) {
    OwnItems(sc, k) && (k in sh.deny ==> KeyOf(sh.deny[k]) == k)
  }

  lemma {:induction false} KeyedRefresh(sh: Shared, sc: Scaler, k: Key, r: (Shared, Option<ScalingInfo>))
    requires Keyed(sh, sc, k)
    requires sc.pc.Poll? ==> RefreshedOn(k, sh, sc.pc.item, r)
    requires sc.pc.Attempt? ==> RefreshedOn(k, sh, sc.pc.item, r)
    ensures sc.pc.Poll? ==> Keyed(Polled(sc, r).0, Polled(sc, r).1, k)
    ensures sc.pc.Attempt? ==> Keyed(Attempted(sc, r).0, Attempted(sc, r).1, k)
  {
    hide AllowsAutoscaling, OptedIn;
  }

  lemma {:induction false} KeyedExec(sh: Shared, sc: Scaler, k: Key, out: Outcome)
    requires Keyed(sh, sc, k)
    ensures Keyed(Exec(sh, sc, out).0, Exec(sh, sc, out).1, k)
  {
    if sc.pc.Poll? || sc.pc.Attempt? {
      hide Refresh, Polled, Attempted;
      var r := Refresh(sh, sc.pc.item, !out.GetFails?);
      RefreshFacts(k, sh, sc.pc.item, !out.GetFails?);
      KeyedRefresh(sh, sc, k, r);
    }
  }

  lemma {:induction false} KeyedEnv(sh: Shared, sc: Scaler, k: Key, e: EnvMove)
    requires Keyed(sh, sc, k) && (e.Foreign? ==> e.key != k)
    ensures Keyed(EnvStep(sh, e), sc, k)
  {
  }

  /** A scaler's own steps leave the objects and entries of others alone; the one exception is the nameless key. */
  lemma {:induction false} StepFrame(sh: Shared, sc: Scaler, k: Key, out: Outcome, q: Key)
    requires Keyed(sh, sc, k) && q != k
    ensures var (sh', sc') := Exec(sh, sc, out);
            (q in sh'.cluster <==> q in sh.cluster) && (q in sh.cluster ==> sh'.cluster[q] == sh.cluster[q]) &&
            (q != ZERO_KEY ==> (q in sh'.deny <==> q in sh.deny) && (q in sh.deny ==> sh'.deny[q] == sh.deny[q]))
  {
    if sc.pc.Poll? || sc.pc.Attempt? {
      hide Refresh;
      RefreshFacts(k, sh, sc.pc.item, !out.GetFails?);
    }
  }

  // ----- the hull

  predicate In(n: int, a: int, b: int) {
    a <= n <= b
  }

  predicate Target(n: int, a: int, b: int) {
    n == -1 || In(n, a, b)
  }

  /** A spec somebody remembers; 0 is what an opt-out leaves on the list. */
  predicate Was(n: int, a: int, b: int) {
    n == 0 || In(n, a, b)
  }

  predicate ItemWithin(item: ScalingInfo, a: int, b: int) {
    Target(item.desired, a, b) && Was(item.spec, a, b)
  }

  ghost predicate PcWithin(pc: Pc, a: int, b: int) {
    match pc
    case Poll(item, _, t) => ItemWithin(item, a, b) && Target(t, a, b)
    case Attempt(item, r, _) => In(r, a, b) && ItemWithin(item, a, b)
    case Write(item, _, r, _) => In(r, a, b) && ItemWithin(item, a, b)
    case Mark(item, _, t) => Was(item.spec, a, b) && Target(t, a, b)
    case _ => true
  }

  ghost predicate ScalerWithin(sc: Scaler, a: int, b: int) {
    In(sc.step, a, b) && In(sc.target, a, b) && In(sc.initial, a, b) && PcWithin(sc.pc, a, b) &&
    ItemWithin(sc.item, a, b) && ItemWithin(sc.outer, a, b)
  }

  ghost predicate KeyWithin(sh: Shared, k: Key, a: int, b: int) {
    (k in sh.cluster ==> In(sh.cluster[k].spec, a, b)) &&
    (k in sh.deny ==> ItemWithin(sh.deny[k], a, b))
  }

  /** Every count the scaler holds or can still read lies between a and b, undetermined targets aside. */
  ghost predicate Within(sh: Shared, sc: Scaler, k: Key, a: int, b: int) {
    Keyed(sh, sc, k) && ScalerWithin(sc, a, b) && KeyWithin(sh, k, a, b)
  }

  /** The environment's moves on key k ask for nothing outside a..b, and others stay off it. */
  ghost predicate AsksWithin(m: Move, k: Key, a: int, b: int) {
    m.Env? ==>
      (m.e.Retarget? && m.e.key == k ==> Target(m.e.target, a, b)) &&
      (m.e.Foreign? ==> m.e.key != k)
  }

  lemma {:induction false} WithinDecide(sc: Scaler, now: ScalingInfo, a: int, b: int)
    requires ScalerWithin(sc, a, b) && In(now.spec, a, b) && Target(now.desired, a, b)
    ensures ScalerWithin(Decide(sc, now), a, b)
  {
    hide AllowsAutoscaling;
  }

  /** What a refresh finds and records stays within bounds. */
  lemma {:induction false} WithinRefresh(sh: Shared, sc: Scaler, k: Key, a: int, b: int,
      r: (Shared, Option<ScalingInfo>))
    requires Within(sh, sc, k, a, b) && sc.pc.Poll? && RefreshedOn(k, sh, sc.pc.item, r)
    ensures KeyWithin(r.0, k, a, b) && k != ZERO_KEY
    ensures r.1.Some? ==> In(r.1.value.spec, a, b) && Target(r.1.value.desired, a, b)
  {
    hide PcKeyed;
  }

  lemma {:induction false} WithinPolled(sh: Shared, sc: Scaler, k: Key, a: int, b: int,
      r: (Shared, Option<ScalingInfo>))
    requires Within(sh, sc, k, a, b) && sc.pc.Poll? && RefreshedOn(k, sh, sc.pc.item, r)
    ensures Within(Polled(sc, r).0, Polled(sc, r).1, k, a, b)
  {
    hide AllowsAutoscaling, Keyed, RefreshedOn, Decide, In, Target;
    KeyedRefresh(sh, sc, k, r);
    WithinRefresh(sh, sc, k, a, b, r);
    if r.1.Some? { WithinDecide(sc, r.1.value, a, b); }
  }

  lemma {:induction false} WithinAttempted(sh: Shared, sc: Scaler, k: Key, a: int, b: int,
      r: (Shared, Option<ScalingInfo>))
    requires Within(sh, sc, k, a, b) && sc.pc.Attempt? && RefreshedOn(k, sh, sc.pc.item, r)
    ensures Within(Attempted(sc, r).0, Attempted(sc, r).1, k, a, b)
  {
    hide OptedIn, Keyed, PcKeyed;
    KeyedRefresh(sh, sc, k, r);
  }

  lemma {:induction false} WithinLocal(sh: Shared, sc: Scaler, k: Key, a: int, b: int, out: Outcome)
    requires Within(sh, sc, k, a, b) && !sc.pc.Poll? && !sc.pc.Attempt?
    ensures Within(Exec(sh, sc, out).0, Exec(sh, sc, out).1, k, a, b)
  {
    hide ExecPoll, ExecAttempt;
    KeyedExec(sh, sc, k, out);
    assert KeyOf(sc.item) == k && (sc.pc.Write? ==> KeyOf(sc.pc.latest) == k) &&
           (sc.pc.Mark? ==> KeyOf(sc.pc.item) == k);
    assert KeyOf(Lookup(sh.deny, sc.outer).0) == k;
    hide Keyed, PcKeyed;
  }

  lemma {:induction false} WithinExec(sh: Shared, sc: Scaler, k: Key, a: int, b: int, out: Outcome)
    requires Within(sh, sc, k, a, b)
    ensures Within(Exec(sh, sc, out).0, Exec(sh, sc, out).1, k, a, b)
  {
    hide Refresh, Polled, Attempted, ExecWrite, ExecHead;
    if sc.pc.Poll? || sc.pc.Attempt? {
      KeyedExec(sh, sc, k, out);
      var r := Refresh(sh, sc.pc.item, !out.GetFails?);
      RefreshFacts(k, sh, sc.pc.item, !out.GetFails?);
      if sc.pc.Poll? { WithinPolled(sh, sc, k, a, b, r); } else { WithinAttempted(sh, sc, k, a, b, r); }
    } else {
      WithinLocal(sh, sc, k, a, b, out);
    }
  }

  lemma {:induction false} WithinEnv(sh: Shared, sc: Scaler, k: Key, a: int, b: int, e: EnvMove)
    requires Within(sh, sc, k, a, b) && AsksWithin(Env(e), k, a, b)
    ensures Within(EnvStep(sh, e), sc, k, a, b)
  {
  }

  /** No overshoot, step and rapid scalers alike: if the starting counts and every target asked for in the run lie
      between a and b, then so does the spec of the object in every reachable state. With a = 0: never negative. */
  lemma {:induction false} SpecStaysWithin(sh: Shared, item: ScalingInfo, ms: seq<Move>, a: int, b: int)
    requires Named(KeyOf(item)) && In(item.spec, a, b) && In(item.desired, a, b)
    requires KeyOf(item) in sh.cluster ==> In(sh.cluster[KeyOf(item)].spec, a, b)
    requires forall i :: 0 <= i < |ms| ==> AsksWithin(ms[i], KeyOf(item), a, b)
    ensures var w := Play(Started(sh, item), ms);
            Within(w.sh, w.sc, KeyOf(item), a, b)
  {
    if ms != [] {
      var before, m := ms[..|ms| - 1], ms[|ms| - 1];
      SpecStaysWithin(sh, item, before, a, b);
      var w := Play(Started(sh, item), before);
      if m.Go? {
        WithinExec(w.sh, w.sc, KeyOf(item), a, b, m.out);
      } else {
        WithinEnv(w.sh, w.sc, KeyOf(item), a, b, m.e);
      }
    }
  }

  // ----- one replica at a time

  predicate Near(a: int, b: int) {
    -1 <= a - b <= 1
  }

  function Toward(from: int, to: int): int {
    if from < to then from + 1 else if from > to then from - 1 else from
  }

  /** The count carried from pass to pass is the spec, or was held back by allow-autoscaling. */
  predicate Carried(step: int, o: Obj) {
    step == o.spec || (AllowsAutoscaling(o.annotations) && step <= o.spec)
  }

  ghost predicate PendingStep(sc: Scaler, item: ScalingInfo, r: int, o: Obj) {
    r == sc.step && item.spec == o.spec && r == Toward(o.spec, sc.target) &&
    (AllowsAutoscaling(o.annotations) ==> r > o.spec)
  }

  /** The invariant of a step scaler: the spec between the start and the targets read so far, a pending write one
      replica nearer to the target last read, and the carried count harmless. */
  ghost predicate OneStep(sh: Shared, sc: Scaler, k: Key) {
    Keyed(sh, sc, k) && sc.mode.Step? && !sc.pc.RapidPut? &&
    (!sc.pc.Head? ==> In(sc.target, sc.lo, sc.hi)) &&
    (k in sh.cluster ==>
      var o := sh.cluster[k];
      In(o.spec, sc.lo, sc.hi) &&
      (sc.pc.Head? || sc.pc.Poll? ==> Carried(sc.step, o)) &&
      (sc.pc.Attempt? ==> PendingStep(sc, sc.pc.item, sc.pc.replicas, o)) &&
      (sc.pc.Write? ==> PendingStep(sc, sc.pc.item, sc.pc.replicas, o)))
  }

  lemma {:induction false} OneStepPolled(sh: Shared, sc: Scaler, k: Key, r: (Shared, Option<ScalingInfo>))
    requires OneStep(sh, sc, k) && sc.pc.Poll? && RefreshedOn(k, sh, sc.pc.item, r)
    ensures OneStep(Polled(sc, r).0, Polled(sc, r).1, k)
  {
    hide AllowsAutoscaling, Keyed, PcKeyed;
    KeyedRefresh(sh, sc, k, r);
  }

  lemma {:induction false} OneStepAttempted(sh: Shared, sc: Scaler, k: Key, r: (Shared, Option<ScalingInfo>))
    requires OneStep(sh, sc, k) && sc.pc.Attempt? && RefreshedOn(k, sh, sc.pc.item, r)
    ensures OneStep(Attempted(sc, r).0, Attempted(sc, r).1, k)
  {
    hide AllowsAutoscaling, OptedIn, Keyed, PcKeyed;
    KeyedRefresh(sh, sc, k, r);
  }

  lemma {:induction false} OneStepExec(sh: Shared, sc: Scaler, k: Key, out: Outcome)
    requires OneStep(sh, sc, k)
    ensures OneStep(Exec(sh, sc, out).0, Exec(sh, sc, out).1, k)
  {
    hide Refresh, Polled, Attempted, AllowsAutoscaling;
    KeyedExec(sh, sc, k, out);
    if sc.pc.Poll? || sc.pc.Attempt? {
      var r := Refresh(sh, sc.pc.item, !out.GetFails?);
      RefreshFacts(k, sh, sc.pc.item, !out.GetFails?);
      if sc.pc.Poll? { OneStepPolled(sh, sc, k, r); } else { OneStepAttempted(sh, sc, k, r); }
    }
  }

  lemma {:induction false} OneStepEnv(sh: Shared, sc: Scaler, k: Key, e: EnvMove)
    requires OneStep(sh, sc, k) && (e.Foreign? ==> e.key != k)
    ensures OneStep(EnvStep(sh, e), sc, k)
  {
    hide AllowsAutoscaling;
    KeyedEnv(sh, sc, k, e);
  }

  /** The start finds the object as the item describes it. */
  ghost predicate FreshStart(sh: Shared, item: ScalingInfo) {
    Named(KeyOf(item)) && !RapidScaling(item) &&
    (KeyOf(item) in sh.cluster ==> sh.cluster[KeyOf(item)].spec == item.spec)
  }

  /** One replica at a time, under any redirects: from a fresh start, in every reachable state, the spec lies between
      the smallest and largest of the start and the targets read so far, and a write about to happen moves it one
      replica towards the target last read, or not at all; so it differs by at most one and stays between the two as
      well. */
  lemma {:induction false} StepsByOne(sh: Shared, item: ScalingInfo, ms: seq<Move>)
    requires FreshStart(sh, item) && OthersKeepOff(KeyOf(item), ms)
    ensures var w, k := Play(Started(sh, item), ms), KeyOf(item);
            OneStep(w.sh, w.sc, k) &&
            (k in w.sh.cluster ==>
              In(w.sh.cluster[k].spec, w.sc.lo, w.sc.hi) &&
              (w.sc.pc.Write? ==>
                w.sc.pc.replicas == Toward(w.sh.cluster[k].spec, w.sc.target) &&
                Near(w.sc.pc.replicas, w.sh.cluster[k].spec) && In(w.sc.pc.replicas, w.sc.lo, w.sc.hi)))
  {
    if ms != [] {
      var before := ms[..|ms| - 1];
      assert OthersKeepOff(KeyOf(item), before) by {
        assert forall i :: 0 <= i < |before| ==> before[i] == ms[i];
      }
      StepsByOne(sh, item, before);
      var w, m := Play(Started(sh, item), before), ms[|ms| - 1];
      if m.Go? { OneStepExec(w.sh, w.sc, KeyOf(item), m.out); } else { OneStepEnv(w.sh, w.sc, KeyOf(item), m.e); }
    }
  }
}

/** What a step scaler achieves, opt-outs and deletions included: how far it runs ahead of the ready replicas, where it
    stops, and, when the target stays put, which specs it writes and how soon it is done. */
module ScalerProgress {
  import opened Items
  import opened DenyList
  import opened ScalerMachine
  import opened ScalerSafety

  /** The spec last written, and the one before. */
  function Current(sc: Scaler): int
    requires sc.specs != []
  {
    sc.specs[|sc.specs| - 1]
  }

  function Previous(sc: Scaler): int
    requires sc.specs != []
  {
    if |sc.specs| > 1 then sc.specs[|sc.specs| - 2] else sc.specs[0]
  }

  predicate Smooth(specs: seq<int>) {
    forall i :: 0 < i < |specs| ==> Near(specs[i - 1], specs[i])
  }

  predicate Recent(n: int, sc: Scaler)
    requires sc.specs != []
  {
    n == Current(sc) || n == Previous(sc)
  }

  /** An opt-out leaves an entry of no kind, which no refresh gets past. */
  predicate Blank(e: ScalingInfo) {
    e.kind.Unknown?
  }

  ghost predicate PcLags(e: ScalingInfo, sc: Scaler)
    requires sc.specs != []
  {
    match sc.pc
    case Head => Blank(e) || Recent(e.spec, sc)
    case Poll(_, remembered, _) => Blank(e) || (Recent(e.spec, sc) && Recent(remembered, sc))
    case Attempt(item, _, _) => Recent(item.ready, sc) && (Blank(e) || e.spec == Current(sc))
    case Write(item, _, _, _) => Recent(item.ready, sc) && (Blank(e) || e.spec == Current(sc))
    case _ => true
  }

  predicate Looping(pc: Pc) {
    pc.Head? || pc.Poll? || pc.Attempt? || pc.Write?
  }

  /** The list remembers the current spec or the one before the last write, and a wait ends on one of the two. */
  ghost predicate Lags(sh: Shared, sc: Scaler, k: Key) {
    OneStep(sh, sc, k) && sc.specs != [] && Near(Current(sc), Previous(sc)) && Smooth(sc.specs) &&
    (k in sh.cluster ==>
      sh.cluster[k].spec == Current(sc) && (Looping(sc.pc) ==> k in sh.deny && PcLags(sh.deny[k], sc)))
  }

  /** What a refresh during the wait leaves on the list. */
  lemma {:induction false} RefreshLags(sh: Shared, sc: Scaler, k: Key, r: (Shared, Option<ScalingInfo>))
    requires Lags(sh, sc, k) && sc.pc.Poll? && RefreshedOn(k, sh, sc.pc.item, r)
    ensures k != ZERO_KEY
    ensures match r.1
            case None => r.0 == sh
            case Some(now) => k in sh.deny && !Blank(sh.deny[k]) && now.spec == Current(sc) &&
                              r.0 == Shared(sh.cluster, sh.deny[k := now]) &&
                              KeyOf(now) == k && k in sh.cluster && sh.cluster[k].spec == Current(sc)
  {
    hide AllowsAutoscaling, PcKeyed, Smooth, Recent;
  }

  lemma {:induction false} LagsPolled(sh: Shared, sc: Scaler, k: Key, r: (Shared, Option<ScalingInfo>))
    requires Lags(sh, sc, k) && sc.pc.Poll? && RefreshedOn(k, sh, sc.pc.item, r)
    ensures Lags(Polled(sc, r).0, Polled(sc, r).1, k)
  {
    hide AllowsAutoscaling, OneStep, Smooth, RefreshedOn, NextStep;
    RefreshLags(sh, sc, k, r);
    OneStepPolled(sh, sc, k, r);
  }

  lemma {:induction false} LagsAttempted(sh: Shared, sc: Scaler, k: Key, r: (Shared, Option<ScalingInfo>))
    requires Lags(sh, sc, k) && sc.pc.Attempt? && RefreshedOn(k, sh, sc.pc.item, r)
    ensures Lags(Attempted(sc, r).0, Attempted(sc, r).1, k)
  {
    OneStepAttempted(sh, sc, k, r);
    hide OptedIn, Keyed, PcKeyed, OneStep, Smooth;
  }

  lemma {:induction false} LagsWrite(sh: Shared, sc: Scaler, k: Key, out: Outcome)
    requires Lags(sh, sc, k) && sc.pc.Write?
    ensures Lags(ExecWrite(sh, sc, out).0, ExecWrite(sh, sc, out).1, k)
  {
    OneStepExec(sh, sc, k, out);
    assert KeyOf(sc.pc.latest) == k && (k in sh.cluster ==> Near(sc.pc.replicas, sh.cluster[k].spec));
    hide AllowsAutoscaling, Keyed, PcKeyed, OneStep;
  }

  lemma {:induction false} LagsExec(sh: Shared, sc: Scaler, k: Key, out: Outcome)
    requires Lags(sh, sc, k)
    ensures Lags(Exec(sh, sc, out).0, Exec(sh, sc, out).1, k)
  {
    hide Refresh, Polled, Attempted, ExecWrite;
    if sc.pc.Poll? || sc.pc.Attempt? {
      RefreshFacts(k, sh, sc.pc.item, !out.GetFails?);
      var r := Refresh(sh, sc.pc.item, !out.GetFails?);
      if sc.pc.Attempt? { LagsAttempted(sh, sc, k, r); } else if !out.TimeoutFires? { LagsPolled(sh, sc, k, r); }
      else { OneStepExec(sh, sc, k, out); hide OneStep; }
    } else if sc.pc.Write? {
      LagsWrite(sh, sc, k, out);
    } else {
      OneStepExec(sh, sc, k, out);
      assert sc.pc.Head? ==> KeyOf(sc.outer) == k && Named(k);
      hide OneStep;
    }
  }

  lemma {:induction false} LagsEnv(sh: Shared, sc: Scaler, k: Key, e: EnvMove)
    requires Lags(sh, sc, k) && (e.Foreign? ==> e.key != k)
    ensures Lags(EnvStep(sh, e), sc, k)
  {
    OneStepEnv(sh, sc, k, e);
    hide OneStep, AllowsAutoscaling, Smooth;
  }

  /** Bounded lag, whatever the environment does: in every reachable state the specs written so far climb or descend one
      at a time, and when a step is decided the ready count the wait ended on is the current spec or the one before the
      last write: at most one away from the current spec, and at most two from the spec about to be written. */
  lemma {:induction false} BoundedLag(sh: Shared, item: ScalingInfo, ms: seq<Move>)
    requires FreshStart(sh, item) && OthersKeepOff(KeyOf(item), ms)
    ensures var w, k := Play(Started(sh, item), ms), KeyOf(item);
            Lags(w.sh, w.sc, k) && Smooth(w.sc.specs) &&
            (w.sc.pc.Write? && k in w.sh.cluster ==>
              var ready, spec := w.sc.pc.item.ready, w.sh.cluster[k].spec;
              (ready == spec || ready == Previous(w.sc)) && Near(ready, spec) && -2 <= ready - w.sc.pc.replicas <= 2)
  {
    if ms != [] {
      var before, m := ms[..|ms| - 1], ms[|ms| - 1];
      assert forall i :: 0 <= i < |before| ==> before[i] == ms[i];
      BoundedLag(sh, item, before);
      var w := Play(Started(sh, item), before);
      hide Exec, EnvStep, Started;
      if m.Go? { LagsExec(w.sh, w.sc, KeyOf(item), m.out); } else { LagsEnv(w.sh, w.sc, KeyOf(item), m.e); }
    }
  }

  /** The wait of StepScale can end on the count the list remembers from before the last write. If the target the list
      holds is that count, the loop is left there, one replica short. With that target the second conjunct says the exit
      misses it; what the lemmas below add is that an exit with any other target does not. */
  predicate EndsShort(e: ScalingInfo, remembered: int, o: Obj) {
    e.desired == remembered && remembered != o.spec
  }

  lemma {:induction false} ExitState(sh: Shared, sc: Scaler, k: Key, out: Outcome)
    requires Lags(sh, sc, k) && sc.pc.Poll? && Exec(sh, sc, out).1.pc == Release(true)
    ensures var sh' := Exec(sh, sc, out).0;
            k in sh.deny && k in sh.cluster && k in sh'.deny && sh'.cluster == sh.cluster &&
            sh'.deny[k].desired == sh.deny[k].desired == sh.cluster[k].ready &&
                sh'.deny[k].ready == sh.cluster[k].ready &&
            Near(sh.cluster[k].spec, sh.deny[k].desired) &&
            (sh.cluster[k].spec == sh.deny[k].desired <==> !EndsShort(sh.deny[k], sc.pc.remembered, sh.cluster[k]))
  {
    hide Refresh, AllowsAutoscaling, OneStep, Smooth;
    LagsIsKeyed(sh, sc, k);
    RefreshFacts(k, sh, sc.pc.item, !out.GetFails?);
  }

  lemma {:induction false} LagsIsKeyed(sh: Shared, sc: Scaler, k: Key)
    requires Lags(sh, sc, k)
    ensures Keyed(sh, sc, k) && (sc.pc.Poll? ==> KeyOf(sc.pc.item) == k) && sc.mode.Step?
  {
    hide Smooth, PcLags, AllowsAutoscaling;
  }

  /** Where a step scaler stops, under any redirects, opt-outs and failures. It leaves its loop with the ready count on
      the target the list holds, and the spec at most one replica off it; and the spec is that target if and only if the
      wait does not end short. */
  lemma {:induction false} ExitOnTargetIff(sh: Shared, item: ScalingInfo, ms: seq<Move>, out: Outcome)
    requires FreshStart(sh, item) && OthersKeepOff(KeyOf(item), ms)
    requires var w := Play(Started(sh, item), ms); w.sc.pc.Poll? && Next(w, Go(out)).sc.pc == Release(true)
    ensures var w, k := Play(Started(sh, item), ms), KeyOf(item);
            var w' := Next(w, Go(out));
            k in w.sh.deny && k in w.sh.cluster && k in w'.sh.deny && w'.sh.cluster == w.sh.cluster &&
            w'.sh.deny[k].desired == w.sh.deny[k].desired == w'.sh.deny[k].ready &&
            Near(w.sh.cluster[k].spec, w.sh.deny[k].desired) &&
            (w'.sh.cluster[k].spec == w'.sh.deny[k].desired <==>
              !EndsShort(w.sh.deny[k], w.sc.pc.remembered, w.sh.cluster[k]))
  {
    hide Play, Started, Lags, Exec, FreshStart;
    BoundedLag(sh, item, ms);
    var w := Play(Started(sh, item), ms);
    ExitState(w.sh, w.sc, KeyOf(item), out);
  }

  // ----- a target that stays put

  predicate Between(s: int, c: int, t: int) {
    s <= c <= t || t <= c <= s
  }

  function Dist(a: int, b: int): nat {
    if a < b then b - a else a - b
  }

  /** s, s±1, ..., c. */
  function Path(s: int, c: int): seq<int>
    decreases Dist(s, c)
  {
    if s == c then [s] else Path(s, Toward(c, s)) + [c]
  }

  /** The distinct values in the order they come, repetitions dropped. */
  function Dedup(s: seq<int>): seq<int> {
    if s == [] then []
    else
      var d := Dedup(s[..|s| - 1]);
      if d != [] && d[|d| - 1] == s[|s| - 1] then d else d + [s[|s| - 1]]
  }

  /** The bound on loop passes. */
  function PassBound(s: int, t: int): nat {
    Dist(s, t) + if s == t then 1 else 2
  }

  lemma {:induction false} PathNext(specs: seq<int>, s: int, c: int, t: int)
    requires Dedup(specs) == Path(s, c) && Between(s, c, t)
    ensures Between(s, Toward(c, t), t) && Dedup(specs + [Toward(c, t)]) == Path(s, Toward(c, t))
  {
    var n := Toward(c, t);
    assert (specs + [n])[..|specs|] == specs;
    assert Path(s, c)[|Path(s, c)| - 1] == c;
    if c != t {
      assert Toward(n, s) == c;
      assert Path(s, n) == Path(s, c) + [n];
    }
  }

  /** An item aims at t; or it is what an opt-out left, which has no target. */
  predicate Aims(e: ScalingInfo, t: int) {
    e.desired == t || (Blank(e) && e.desired == -1)
  }

  /** What the list still lets a scaler find of an object that is there. */
  ghost predicate ListOnCourse(e: ScalingInfo, sc: Scaler, t: int, left: int)
    requires sc.specs != []
  {
    var c := Current(sc);
    match sc.pc
    case Head => Dist(c, t) + (if e.spec == t then 1 else 2) <= left
    case Poll(_, remembered, wt) => wt == t && Dist(c, t) + (if remembered == t then 0 else 1) <= left
    case Write(_, _, _, _) => e.spec == c
    case _ => true
  }

  ghost predicate PcOnCourse(sh: Shared, sc: Scaler, k: Key, s: int, t: int)
    requires sc.specs != []
  {
    var left, c := PassBound(s, t) - sc.passes, Current(sc);
    (Looping(sc.pc) && k in sh.cluster ==>
      k in sh.deny && (Blank(sh.deny[k]) || ListOnCourse(sh.deny[k], sc, t, left))) &&
    match sc.pc
    case RapidPut => true
    case Head => left >= 1
    case Poll(item, _, wt) => left >= 0 && Aims(item, t) && wt == item.desired
    case Attempt(item, r, _) => item.desired == t && r == Toward(c, t) && Dist(c, t) + 1 <= left
    case Write(item, _, r, _) => item.desired == t && r == Toward(c, t) && Dist(c, t) + 1 <= left
    case Mark(item, _, mt) => left >= 0 && (mt == t || (Blank(item) && mt == -1))
    case Release(ok) => left >= 0 && (ok ==> c == t && RemembersTarget(sh, k, t))
    case Finished(ok) => left >= 0 && (ok ==> c == t)
  }

  /** After a good exit the list has the object at its target, unless it has been opted out or deleted since. */
  ghost predicate RemembersTarget(sh: Shared, k: Key, t: int) {
    (k in sh.cluster ==> k in sh.deny) &&
    (k in sh.deny ==> Blank(sh.deny[k]) || (sh.deny[k].ready == t && sh.deny[k].spec == t))
  }

  ghost predicate Steady(sh: Shared, sc: Scaler, k: Key, s: int, t: int)
    requires sc.specs != []
  {
    t != -1 && sc.initial == t && (!sc.pc.Head? ==> sc.target == t) &&
    (k in sh.deny ==> Aims(sh.deny[k], t)) && Aims(sc.outer, t) &&
    Between(s, Current(sc), t) && Dedup(sc.specs) == Path(s, Current(sc)) &&
    (Previous(sc) == t ==> Current(sc) == t) &&
    (k in sh.cluster && AllowsAutoscaling(sh.cluster[k].annotations) ==> s <= t)
  }

  /** On course from s to t: the distinct specs so far are the path to the current one, the target read is t, and the
      passes still needed fit the bound. A spec once at t stays there. */
  ghost predicate OnCourse(sh: Shared, sc: Scaler, k: Key, s: int, t: int) {
    Lags(sh, sc, k) && Steady(sh, sc, k, s, t) && PcOnCourse(sh, sc, k, s, t)
  }

  /** The decision after a good wait: stop only at t, write one nearer to t, or t again at most once. */
  lemma {:induction false} DecideOnCourse(sh: Shared, sc: Scaler, k: Key, s: int, t: int, now: ScalingInfo)
    requires sc.specs != [] && sc.mode.Step? && sc.pc.Poll? && Steady(sh, sc, k, s, t) && PcOnCourse(sh, sc, k, s, t)
    requires k in sh.cluster && k in sh.deny && sh.deny[k] == now && !Blank(now)
    requires now.spec == Current(sc) && now.desired == t
    requires Dist(Current(sc), t) + (if sc.pc.remembered == t then 0 else 1) <= PassBound(s, t) - sc.passes
    requires sc.step == now.spec || (AllowsAutoscaling(now.annotations) && sc.step <= now.spec)
    requires AllowsAutoscaling(now.annotations) ==> s <= t
    requires sc.pc.remembered == t ==> Current(sc) == t
    requires now.ready == sc.pc.remembered || now.ready == now.spec
    ensures PcOnCourse(sh, Decide(sc, now), k, s, t)
  {
    hide AllowsAutoscaling, Path, Dedup;
  }

  /** What a refresh that succeeds finds while on course. */
  lemma {:induction false} RefreshedOnCourse(sh: Shared, sc: Scaler, k: Key, s: int, t: int,
      r: (Shared, Option<ScalingInfo>))
    requires OnCourse(sh, sc, k, s, t) && sc.pc.Poll? && RefreshedOn(k, sh, sc.pc.item, r) && r.1.Some?
    ensures var now := r.1.value;
            sc.mode.Step? && now.spec == Current(sc) && now.desired == t && !Blank(now) &&
            k in sh.cluster && k in sh.deny && r.0 == Shared(sh.cluster, sh.deny[k := now]) &&
            sc.pc.waitTarget == t &&
            Dist(Current(sc), t) + (if sc.pc.remembered == t then 0 else 1) <= PassBound(s, t) - sc.passes &&
            (sc.step == now.spec || (AllowsAutoscaling(now.annotations) && sc.step <= now.spec)) &&
            (AllowsAutoscaling(now.annotations) ==> s <= t) && (sc.pc.remembered == t ==> Current(sc) == t)
  {
    hide AllowsAutoscaling, Path, Dedup, PassBound, Dist, PcKeyed, Smooth;
  }

  lemma {:induction false} NotNameless(sh: Shared, sc: Scaler, k: Key, s: int, t: int, r: (Shared, Option<ScalingInfo>))
    requires OnCourse(sh, sc, k, s, t) && sc.pc.Poll? && RefreshedOn(k, sh, sc.pc.item, r) && r.1.None?
    ensures k != ZERO_KEY && r.0 == sh
  {
    hide AllowsAutoscaling, Path, Dedup, PassBound, Dist, Smooth;
  }

  lemma {:induction false} OnCoursePolled(sh: Shared, sc: Scaler, k: Key, s: int, t: int,
      r: (Shared, Option<ScalingInfo>))
    requires OnCourse(sh, sc, k, s, t) && sc.pc.Poll? && RefreshedOn(k, sh, sc.pc.item, r)
    ensures OnCourse(Polled(sc, r).0, Polled(sc, r).1, k, s, t)
  {
    hide AllowsAutoscaling, Path, Dedup, RefreshedOn, PcLags, OneStep, Smooth;
    LagsPolled(sh, sc, k, r);
    if r.1.Some? {
      var now := r.1.value;
      RefreshedOnCourse(sh, sc, k, s, t, r);
      if now.ready == sc.pc.remembered || now.spec == now.ready {
        DecideOnCourse(r.0, sc, k, s, t, now);
      }
    } else {
      NotNameless(sh, sc, k, s, t, r);
    }
  }

  lemma {:induction false} OnCourseAttempted(sh: Shared, sc: Scaler, k: Key, s: int, t: int,
      r: (Shared, Option<ScalingInfo>))
    requires OnCourse(sh, sc, k, s, t) && sc.pc.Attempt? && RefreshedOn(k, sh, sc.pc.item, r)
    ensures OnCourse(Attempted(sc, r).0, Attempted(sc, r).1, k, s, t)
  {
    LagsAttempted(sh, sc, k, r);
    hide OptedIn, AllowsAutoscaling, Lags, Path, Dedup;
  }

  lemma {:induction false} WroteOnCourse(sh: Shared, sc: Scaler, k: Key, s: int, t: int)
    requires sc.specs != [] && sc.mode.Step? && sc.pc.Write? && Steady(sh, sc, k, s, t) && PcOnCourse(sh, sc, k, s, t)
    requires k in sh.cluster
    ensures var sc' := AfterScaling(sc.(specs := sc.specs + [sc.pc.replicas]));
            Steady(sh, sc', k, s, t) && PcOnCourse(sh, sc', k, s, t)
  {
    PathNext(sc.specs, s, Current(sc), t);
    hide AllowsAutoscaling, Path, Dedup;
  }

  lemma {:induction false} OnCourseWrite(sh: Shared, sc: Scaler, k: Key, s: int, t: int, out: Outcome)
    requires OnCourse(sh, sc, k, s, t) && sc.pc.Write?
    ensures OnCourse(ExecWrite(sh, sc, out).0, ExecWrite(sh, sc, out).1, k, s, t)
  {
    LagsWrite(sh, sc, k, out);
    assert KeyOf(sc.pc.latest) == k;
    if k in sh.cluster { WroteOnCourse(sh, sc, k, s, t); }
    hide AllowsAutoscaling, Lags, Path, Dedup, Between, PassBound;
  }

  lemma {:induction false} OnCourseExec(sh: Shared, sc: Scaler, k: Key, s: int, t: int, out: Outcome)
    requires OnCourse(sh, sc, k, s, t)
    ensures OnCourse(Exec(sh, sc, out).0, Exec(sh, sc, out).1, k, s, t)
  {
    hide Refresh, Polled, Attempted, ExecWrite, AllowsAutoscaling, Path, Dedup;
    if sc.pc.Poll? || sc.pc.Attempt? {
      RefreshFacts(k, sh, sc.pc.item, !out.GetFails?);
      var r := Refresh(sh, sc.pc.item, !out.GetFails?);
      if sc.pc.Attempt? { OnCourseAttempted(sh, sc, k, s, t, r); }
      else if !out.TimeoutFires? { OnCoursePolled(sh, sc, k, s, t, r); }
      else { LagsExec(sh, sc, k, out); hide Lags; }
    } else if sc.pc.Write? {
      OnCourseWrite(sh, sc, k, s, t, out);
    } else {
      LagsExec(sh, sc, k, out);
      assert KeyOf(sc.outer) == k && KeyOf(sc.item) == k && Named(k);
      hide Lags;
    }
  }

  lemma {:induction false} OnCourseEnv(sh: Shared, sc: Scaler, k: Key, s: int, t: int, e: EnvMove)
    requires OnCourse(sh, sc, k, s, t) && KeepsTarget(Env(e), k, t)
    ensures OnCourse(EnvStep(sh, e), sc, k, s, t)
  {
    LagsEnv(sh, sc, k, e);
    hide Lags, AllowsAutoscaling, Path, Dedup;
  }

  /** Moves that ask for no other target, and nobody else at its key; the object may be opted out or deleted. */
  ghost predicate KeepsTarget(m: Move, k: Key, t: int) {
    m.Env? && m.e.key == k ==> !m.e.Foreign? && (m.e.Retarget? ==> m.e.target == t)
  }

  lemma {:induction false} StartsInStep(sh: Shared, item: ScalingInfo)
    requires FreshStart(sh, item)
    ensures var w, k := Started(sh, item), KeyOf(item);
            OneStep(w.sh, w.sc, k) &&
                w.sc == Scaler(Step, item.(isBeingScaled := true), item.(isBeingScaled := true), item.spec,
                               item.desired, item.desired, Head, [item.spec], item.spec, item.spec, 0) &&
            w.sh.cluster == sh.cluster && k in w.sh.deny && w.sh.deny[k] == item.(isBeingScaled := true)
  {
    hide AllowsAutoscaling;
  }

  lemma {:induction false} OneSpec(n: int)
    ensures Dedup([n]) == [n] == Path(n, n) && Smooth([n])
  {
    assert [n][..0] == [];
  }

  lemma {:induction false} StartsOnCourse(sh: Shared, item: ScalingInfo)
    requires FreshStart(sh, item) && item.desired != -1
    requires KeyOf(item) in sh.cluster && AllowsAutoscaling(sh.cluster[KeyOf(item)].annotations) ==>
             item.spec <= item.desired
    ensures OnCourse(Started(sh, item).sh, Started(sh, item).sc, KeyOf(item), item.spec, item.desired)
  {
    hide AllowsAutoscaling, OneStep, Started, Dedup, Path, Smooth;
    StartsInStep(sh, item);
    OneSpec(item.spec);
  }

  lemma {:induction false} StaysOnCourse(w0: World, k: Key, s: int, t: int, ms: seq<Move>)
    requires OnCourse(w0.sh, w0.sc, k, s, t)
    requires forall i :: 0 <= i < |ms| ==> KeepsTarget(ms[i], k, t)
    ensures var w := Play(w0, ms); OnCourse(w.sh, w.sc, k, s, t)
  {
    if ms != [] {
      var before, m := ms[..|ms| - 1], ms[|ms| - 1];
      StaysOnCourse(w0, k, s, t, before);
      var w := Play(w0, before);
      hide Exec, EnvStep, OnCourse;
      if m.Go? { OnCourseExec(w.sh, w.sc, k, s, t, m.out); } else { OnCourseEnv(w.sh, w.sc, k, s, t, m.e); }
    }
  }

  /** A step scaler whose target stays put. In every reachable state the distinct specs are start, start±1, ... up to
      the current one, the loop has begun at most |start - target| + 2 passes, and when it has ended well the path is
      complete and spec, ready count (at the last refresh) and target are equal; the object may be opted out or deleted
      on the way. Autoscaled objects only when scaling up. */
  lemma {:induction false} FixedTargetRun(sh: Shared, item: ScalingInfo, ms: seq<Move>)
    requires FreshStart(sh, item) && item.desired != -1
    requires KeyOf(item) in sh.cluster && AllowsAutoscaling(sh.cluster[KeyOf(item)].annotations) ==>
             item.spec <= item.desired
    requires forall i :: 0 <= i < |ms| ==> KeepsTarget(ms[i], KeyOf(item), item.desired)
    ensures var w, k, s, t := Play(Started(sh, item), ms), KeyOf(item), item.spec, item.desired;
            w.sc.specs != [] && Smooth(w.sc.specs) && w.sc.passes <= Dist(s, t) + 2 && Between(s, Current(w.sc), t) &&
            Dedup(w.sc.specs) == Path(s, Current(w.sc)) &&
            (k in w.sh.cluster ==> w.sh.cluster[k].spec == Current(w.sc)) &&
            (w.sc.pc == Release(true) ==> Current(w.sc) == t && RemembersTarget(w.sh, k, t)) &&
            (w.sc.pc == Finished(true) ==> Current(w.sc) == t)
  {
    var w0 := Started(sh, item);
    StartsOnCourse(sh, item);
    StaysOnCourse(w0, KeyOf(item), item.spec, item.desired, ms);
    hide Play, Started, Path, Dedup, OneStep, Smooth, AllowsAutoscaling;
    var sc := Play(w0, ms).sc;
    assert sc.passes <= PassBound(item.spec, item.desired);
  }
}

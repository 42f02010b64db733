/** Where the guarantees of the step scaler end, and what holds on the way out. */
module ScalerLimits {
  import opened Items
  import opened DenyList
  import opened ScalerMachine
  import opened ScalerSafety
  import opened ScalerProgress

  // ----- leaving the list

  /** Whatever path a scaler takes, the step that ends it takes its key off the list; and once a failure is being
      recorded two steps of its own lead there, whatever happens in between. */
  lemma {:induction false} ReleaseOnExit(sh: Shared, sc: Scaler, out: Outcome)
    requires !sc.pc.Finished?
    ensures Exec(sh, sc, out).1.pc.Finished? ==> KeyOf(sc.item) !in Exec(sh, sc, out).0.deny
    ensures sc.pc.Mark? ==> Exec(sh, sc, out).1.pc == Release(false)
    ensures sc.pc.Release? ==> Exec(sh, sc, out).1.pc == Finished(sc.pc.ok)
    ensures Exec(sh, sc, out).1.item == sc.item
  {
    hide Refresh, AllowsAutoscaling, OptedIn;
  }

  /** What a run leaves of the list and the cluster but for the scaler's own steps. */
  function EnvOnly(sh: Shared, ms: seq<Move>): Shared {
    if ms == [] then sh
    else
      var before, m := EnvOnly(sh, ms[..|ms| - 1]), ms[|ms| - 1];
      if m.Env? then EnvStep(before, m.e) else before
  }

  predicate Alike(a: Shared, b: Shared, q: Key) {
    (q in a.cluster <==> q in b.cluster) && (q in a.cluster ==> a.cluster[q] == b.cluster[q]) &&
    (q in a.deny <==> q in b.deny) && (q in a.deny ==> a.deny[q] == b.deny[q])
  }

  lemma {:induction false} EnvElsewhere(sh: Shared, q: Key, e: EnvMove)
    requires e.key != q
    ensures Alike(EnvStep(sh, e), sh, q)
  {
    hide OptedIn;
  }

  lemma {:induction false} EnvHere(a: Shared, b: Shared, e: EnvMove)
    requires Alike(a, b, e.key)
    ensures Alike(EnvStep(a, e), EnvStep(b, e), e.key)
  {
    hide OptedIn;
  }

  /** The environment's moves at a key see nothing but that key. */
  lemma {:induction false} EnvAlike(a: Shared, b: Shared, q: Key, e: EnvMove)
    requires Alike(a, b, q)
    ensures Alike(EnvStep(a, e), EnvStep(b, e), q)
  {
    hide EnvStep;
    if e.key == q {
      EnvHere(a, b, e);
    } else {
      EnvElsewhere(a, q, e);
      EnvElsewhere(b, q, e);
    }
  }

  ghost predicate OffTheList(sh: Shared, sc: Scaler, k: Key) {
    Keyed(sh, sc, k) && (sc.pc.Finished? ==> k !in sh.deny)
  }

  lemma {:induction false} OffTheListNext(w: World, k: Key, m: Move)
    requires OffTheList(w.sh, w.sc, k) && (m.Env? && m.e.Foreign? ==> m.e.key != k)
    ensures OffTheList(Next(w, m).sh, Next(w, m).sc, k)
  {
    hide Refresh, AllowsAutoscaling, OptedIn, PcKeyed, ExecPoll, ExecAttempt, ExecWrite;
    if m.Env? {
      KeyedEnv(w.sh, w.sc, k, m.e);
    } else {
      KeyedExec(w.sh, w.sc, k, m.out);
      hide Decide;
      if !w.sc.pc.Finished? { ReleaseOnExit(w.sh, w.sc, m.out); }
    }
  }

  /** Release and frame over the whole of any run: once the scaler has ended, by whatever path, its key is off the list
      and stays off; and at every other named key, list and cluster are at all times what the environment alone would
      have left there. */
  lemma {:induction false} ReleasedAndFramed(sh: Shared, item: ScalingInfo, ms: seq<Move>, q: Key)
    requires Named(KeyOf(item)) && OthersKeepOff(KeyOf(item), ms)
    ensures var w, k := Play(Started(sh, item), ms), KeyOf(item);
            OffTheList(w.sh, w.sc, k) && (w.sc.pc.Finished? ==> k !in w.sh.deny) &&
            (Named(q) && q != k ==> Alike(w.sh, EnvOnly(sh, ms), q))
  {
    hide Exec, EnvStep, RapidScaling, Refresh;
    if ms != [] {
      var before, m := ms[..|ms| - 1], ms[|ms| - 1];
      assert forall i :: 0 <= i < |before| ==> before[i] == ms[i];
      ReleasedAndFramed(sh, item, before, q);
      var w := Play(Started(sh, item), before);
      hide Started;
      OffTheListNext(w, KeyOf(item), m);
      if Named(q) && q != KeyOf(item) {
        if m.Env? {
          EnvAlike(w.sh, EnvOnly(sh, before), q, m.e);
        } else {
          StepFrame(w.sh, w.sc, KeyOf(item), m.out, q);
        }
      }
    }
  }

  lemma {:induction false} PcItem(sh: Shared, sc: Scaler, k: Key)
    requires Keyed(sh, sc, k)
    ensures sc.pc.Poll? ==> KeyOf(sc.pc.item) == k
    ensures sc.pc.Attempt? ==> KeyOf(sc.pc.item) == k
  {
  }

  // ----- redirects

  predicate Live(pc: Pc) {
    pc.Head? || pc.Poll? || pc.Attempt? || pc.Write?
  }

  /** Moves that neither opt out nor delete the object, and nobody else at its key. */
  ghost predicate Calm(m: Move, k: Key) {
    m.Env? ==> m.e.key != k || m.e.Readiness? || m.e.Reports? || m.e.Retarget?
  }

  /** Nobody changes the target of k. */
  ghost predicate Quiet(m: Move, k: Key) {
    Calm(m, k) && (m.Env? && m.e.Retarget? ==> m.e.key != k)
  }

  lemma {:induction false} TargetKept(w: World, k: Key, m: Move)
    requires Keyed(w.sh, w.sc, k) && k in w.sh.deny && Quiet(m, k) && Live(Next(w, m).sc.pc) && !w.sc.pc.RapidPut?
    ensures Keyed(Next(w, m).sh, Next(w, m).sc, k) && Live(w.sc.pc)
    ensures k in Next(w, m).sh.deny && Next(w, m).sh.deny[k].desired == w.sh.deny[k].desired
  {
    hide Refresh, AllowsAutoscaling, OptedIn;
    if m.Env? {
      KeyedEnv(w.sh, w.sc, k, m.e);
    } else {
      KeyedExec(w.sh, w.sc, k, m.out);
      if w.sc.pc.Poll? || w.sc.pc.Attempt? { RefreshFacts(k, w.sh, w.sc.pc.item, !m.out.GetFails?); }
    }
  }

  /** A redirect reaches the scaler: however many refreshes follow, the list keeps the new target until somebody changes
      it again, so a step scaler still in its loop reads it at its next pass. */
  lemma {:induction false} RedirectSurvives(w: World, k: Key, t: int, ms: seq<Move>)
    requires Keyed(w.sh, w.sc, k) && k in w.sh.deny && Live(w.sc.pc) && t != -1
    requires forall i :: 0 <= i < |ms| ==> Quiet(ms[i], k)
    ensures var w0 := w.(sh := EnvStep(w.sh, Retarget(k, t)));
            w0.sh == w.sh.(deny := w.sh.deny[k := w.sh.deny[k].(desired := t)]) &&
            var w' := Play(w0, ms);
            Live(w'.sc.pc) ==>
              Keyed(w'.sh, w'.sc, k) && k in w'.sh.deny && w'.sh.deny[k].desired == t &&
              (w'.sc.pc.Head? ==> Next(w', Go(Fine)).sc.target == t)
  {
    var w0 := w.(sh := EnvStep(w.sh, Retarget(k, t)));
    if ms == [] {
      KeyedEnv(w.sh, w.sc, k, Retarget(k, t));
    } else {
      var before, m := ms[..|ms| - 1], ms[|ms| - 1];
      RedirectSurvives(w, k, t, before);
      var v := Play(w0, before);
      hide EnvStep;
      if Live(Next(v, m).sc.pc) {
        LiveBefore(v, m);
        assert !v.sc.pc.RapidPut? by { NeverRapidAgain(w0, before); }
        TargetKept(v, k, m);
      }
    }
  }

  lemma {:induction false} InitialStays(sc: Scaler, sh: Shared, out: Outcome)
    ensures Exec(sh, sc, out).1.initial == sc.initial
  {
    hide Refresh, AllowsAutoscaling, OptedIn;
  }

  /** What a pass aims at: the target the list has for the item, or, when that is undetermined, the one the scaler was
      started with. */
  lemma {:induction false} PassAims(sh: Shared, item: ScalingInfo, ms: seq<Move>, out: Outcome)
    requires Named(KeyOf(item)) && OthersKeepOff(KeyOf(item), ms)
    ensures var w, k := Play(Started(sh, item), ms), KeyOf(item);
            Keyed(w.sh, w.sc, k) && w.sc.initial == item.desired &&
            (w.sc.pc.Head? && k in w.sh.deny ==>
              Next(w, Go(out)).sc.target == if w.sh.deny[k].desired == -1 then item.desired else w.sh.deny[k].desired)
  {
    hide Exec, EnvStep, RapidScaling;
    if ms != [] {
      var before, m := ms[..|ms| - 1], ms[|ms| - 1];
      assert forall i :: 0 <= i < |before| ==> before[i] == ms[i];
      PassAims(sh, item, before, out);
      var w := Play(Started(sh, item), before);
      hide Started;
      if m.Go? { KeyedExec(w.sh, w.sc, KeyOf(item), m.out); InitialStays(w.sc, w.sh, m.out); }
      else { KeyedEnv(w.sh, w.sc, KeyOf(item), m.e); }
    }
    var now := Play(Started(sh, item), ms);
    if now.sc.pc.Head? && KeyOf(item) in now.sh.deny { HeadAims(now, KeyOf(item), out); }
  }

  lemma {:induction false} HeadAims(w: World, k: Key, out: Outcome)
    requires Keyed(w.sh, w.sc, k) && w.sc.pc.Head? && k in w.sh.deny
    ensures Next(w, Go(out)).sc.target == if w.sh.deny[k].desired == -1 then w.sc.initial else w.sh.deny[k].desired
  {
  }

  lemma {:induction false} LiveBefore(w: World, m: Move)
    requires Live(Next(w, m).sc.pc)
    ensures Live(w.sc.pc) || w.sc.pc.RapidPut?
  {
    hide Refresh, EnvStep, AllowsAutoscaling;
  }

  lemma {:induction false} NeverRapidAgain(w: World, ms: seq<Move>)
    requires !w.sc.pc.RapidPut?
    ensures !Play(w, ms).sc.pc.RapidPut?
  {
    hide Refresh, EnvStep, AllowsAutoscaling, OptedIn;
    if ms != [] { NeverRapidAgain(w, ms[..|ms| - 1]); }
  }

  predicate NoFarther(up: bool, a: int, b: int) {
    if up then a <= b else b <= a
  }

  predicate Short(up: bool, a: int, b: int) {
    if up then a < b else b < a
  }

  /** No count beyond `limit` is left to be written but through a target the scaler read before. */
  ghost predicate PcHeldTo(up: bool, e: ScalingInfo, sc: Scaler, spec: int, limit: int) {
    match sc.pc
    case Poll(_, _, _) => Blank(e) || NoFarther(up, sc.target, limit) || Short(up, spec, limit)
    case Attempt(_, r, _) => NoFarther(up, r, limit)
    case Write(_, _, r, _) => NoFarther(up, r, limit)
    case _ => true
  }

  /** A step scaler that does not get its object beyond `limit`, upwards or downwards. */
  ghost predicate HeldTo(up: bool, sh: Shared, sc: Scaler, k: Key, limit: int) {
    OneStep(sh, sc, k) &&
    (k in sh.cluster ==>
      NoFarther(up, sh.cluster[k].spec, limit) &&
      (Looping(sc.pc) ==>
        k in sh.deny &&
        (Blank(sh.deny[k]) || (NoFarther(up, sh.deny[k].desired, limit) && sh.deny[k].desired != -1)) &&
        PcHeldTo(up, sh.deny[k], sc, sh.cluster[k].spec, limit)))
  }

  lemma {:induction false} HeldToPolled(
      up: bool, sh: Shared, sc: Scaler, k: Key, limit: int, r: (Shared, Option<ScalingInfo>))
    requires HeldTo(up, sh, sc, k, limit) && sc.pc.Poll? && RefreshedOn(k, sh, sc.pc.item, r)
    ensures HeldTo(up, Polled(sc, r).0, Polled(sc, r).1, k, limit)
  {
    hide AllowsAutoscaling, PcKeyed;
    OneStepPolled(sh, sc, k, r);
  }

  lemma {:induction false} HeldToAttempted(
      up: bool, sh: Shared, sc: Scaler, k: Key, limit: int, r: (Shared, Option<ScalingInfo>))
    requires HeldTo(up, sh, sc, k, limit) && sc.pc.Attempt? && RefreshedOn(k, sh, sc.pc.item, r)
    ensures HeldTo(up, Attempted(sc, r).0, Attempted(sc, r).1, k, limit)
  {
    hide OptedIn, AllowsAutoscaling, PcKeyed;
    OneStepAttempted(sh, sc, k, r);
  }

  lemma {:induction false} HeldToLocal(up: bool, sh: Shared, sc: Scaler, k: Key, limit: int, out: Outcome)
    requires HeldTo(up, sh, sc, k, limit) && !sc.pc.Poll? && !sc.pc.Attempt?
    ensures HeldTo(up, Exec(sh, sc, out).0, Exec(sh, sc, out).1, k, limit)
  {
    hide ExecPoll, ExecAttempt, AllowsAutoscaling;
    OneStepExec(sh, sc, k, out);
  }

  lemma {:induction false} HeldToExec(up: bool, sh: Shared, sc: Scaler, k: Key, limit: int, out: Outcome)
    requires HeldTo(up, sh, sc, k, limit)
    ensures HeldTo(up, Exec(sh, sc, out).0, Exec(sh, sc, out).1, k, limit)
  {
    hide Refresh, Polled, Attempted, ExecWrite, ExecHead, AllowsAutoscaling, PcKeyed, PcHeldTo, NoFarther;
    if sc.pc.Poll? || sc.pc.Attempt? {
      OneStepExec(sh, sc, k, out);
      var r := Refresh(sh, sc.pc.item, !out.GetFails?);
      RefreshFacts(k, sh, sc.pc.item, !out.GetFails?) by { PcItem(sh, sc, k); }
      if sc.pc.Attempt? { HeldToAttempted(up, sh, sc, k, limit, r); }
      else if !out.TimeoutFires? { HeldToPolled(up, sh, sc, k, limit, r); }
    } else {
      HeldToLocal(up, sh, sc, k, limit, out);
    }
  }

  lemma {:induction false} HeldToEnv(up: bool, sh: Shared, sc: Scaler, k: Key, limit: int, e: EnvMove)
    requires HeldTo(up, sh, sc, k, limit) && (e.Foreign? ==> e.key != k)
    requires e.Retarget? && e.key == k ==> NoFarther(up, e.target, limit) && e.target != -1
    ensures HeldTo(up, EnvStep(sh, e), sc, k, limit)
  {
    hide OptedIn, AllowsAutoscaling, PcKeyed, NoFarther;
    OneStepEnv(sh, sc, k, e);
  }

  ghost predicate AsksNoFarther(up: bool, ms: seq<Move>, k: Key, t: int) {
    OthersKeepOff(k, ms) &&
    forall i :: 0 <= i < |ms| && ms[i].Env? && ms[i].e.Retarget? && ms[i].e.key == k ==>
      NoFarther(up, ms[i].e.target, t) && ms[i].e.target != -1
  }

  lemma {:induction false} HeldToRun(up: bool, w: World, k: Key, limit: int, ms: seq<Move>)
    requires HeldTo(up, w.sh, w.sc, k, limit) && AsksNoFarther(up, ms, k, limit)
    ensures HeldTo(up, Play(w, ms).sh, Play(w, ms).sc, k, limit)
  {
    hide HeldTo, Exec, EnvStep, NoFarther;
    if ms != [] {
      var before, m := ms[..|ms| - 1], ms[|ms| - 1];
      assert forall i :: 0 <= i < |before| ==> before[i] == ms[i];
      HeldToRun(up, w, k, limit, before);
      var v := Play(w, before);
      if m.Go? { HeldToExec(up, v.sh, v.sc, k, limit, m.out); } else { HeldToEnv(up, v.sh, v.sc, k, limit, m.e); }
    }
  }

  /** The farther of t and one replica from the spec now. */
  function Reach(up: bool, spec: int, t: int): int {
    if up then Max(t, spec + 1) else Min(t, spec - 1)
  }

  /** A step scaler is held to that as soon as the list has t for it, whatever it read before. */
  lemma {:induction false} HeldToReach(up: bool, sh: Shared, sc: Scaler, k: Key, t: int)
    requires OneStep(sh, sc, k) && Looping(sc.pc) && k in sh.cluster && k in sh.deny
    requires Blank(sh.deny[k]) || (sh.deny[k].desired == t && t != -1)
    ensures HeldTo(up, sh, sc, k, Reach(up, sh.cluster[k].spec, t))
  {
    hide AllowsAutoscaling, PcKeyed;
  }

  /** How far a step scaler overshoots a redirect, upwards or downwards: from then on, as long as nobody asks for
      anything farther than t, its object never gets beyond t, or beyond one replica from what it has then. */
  lemma {:induction false} RedirectOvershoot(up: bool, w: World, k: Key, t: int, ms: seq<Move>)
    requires OneStep(w.sh, w.sc, k) && Looping(w.sc.pc) && k in w.sh.cluster && k in w.sh.deny && t != -1
    requires AsksNoFarther(up, ms, k, t)
    ensures var w' := Play(w.(sh := EnvStep(w.sh, Retarget(k, t))), ms);
            k in w'.sh.cluster ==>
              if up then w'.sh.cluster[k].spec <= Max(t, w.sh.cluster[k].spec + 1)
              else w'.sh.cluster[k].spec >= Min(t, w.sh.cluster[k].spec - 1)
  {
    hide Play, AllowsAutoscaling, PcKeyed, HeldTo;
    var limit := Reach(up, w.sh.cluster[k].spec, t);
    OneStepEnv(w.sh, w.sc, k, Retarget(k, t));
    var w0 := w.(sh := EnvStep(w.sh, Retarget(k, t)));
    assert Named(k);
    HeldToReach(up, w0.sh, w0.sc, k, t);
    HeldToRun(up, w0, k, limit, ms);
    HeldToSpec(up, Play(w0, ms), k, limit);
  }

  lemma {:induction false} HeldToSpec(up: bool, w: World, k: Key, limit: int)
    requires HeldTo(up, w.sh, w.sc, k, limit)
    ensures k in w.sh.cluster ==> NoFarther(up, w.sh.cluster[k].spec, limit)
  {
  }

  // ----- opting out

  ghost predicate OptedOut(w: World, k: Key) {
    Keyed(w.sh, w.sc, k) && !w.sc.pc.Write? && (k in w.sh.cluster ==> !OptedIn(w.sh.cluster[k].labels))
  }

  lemma {:induction false} OptedOutNext(w: World, k: Key, m: Move)
    requires OptedOut(w, k) && (m.Env? && m.e.Foreign? ==> m.e.key != k)
    ensures OptedOut(Next(w, m), k)
    ensures k in Next(w, m).sh.cluster ==> k in w.sh.cluster && Next(w, m).sh.cluster[k].spec == w.sh.cluster[k].spec
  {
    hide Refresh, AllowsAutoscaling, OptedIn;
    if m.Env? {
      KeyedEnv(w.sh, w.sc, k, m.e);
    } else {
      KeyedExec(w.sh, w.sc, k, m.out);
      if w.sc.pc.Poll? || w.sc.pc.Attempt? { RefreshFacts(k, w.sh, w.sc.pc.item, !m.out.GetFails?); }
    }
  }

  /** Once its object is opted out, a scaler writes no more: apart from an update already under way when the label went,
      the spec never changes again, redirects or not. */
  lemma {:induction false} OptOutStopsWrites(w: World, k: Key, ms: seq<Move>)
    requires OptedOut(w, k) && OthersKeepOff(k, ms)
    ensures var w' := Play(w, ms);
            OptedOut(w', k) &&
            (k in w'.sh.cluster ==> k in w.sh.cluster && w'.sh.cluster[k].spec == w.sh.cluster[k].spec)
  {
    if ms != [] {
      var before := ms[..|ms| - 1];
      assert forall i :: 0 <= i < |before| ==> before[i] == ms[i];
      OptOutStopsWrites(w, k, before);
      hide OptedOut, Next;
      OptedOutNext(Play(w, before), k, ms[|ms| - 1]);
    }
  }

  // ----- concrete runs

  /** An object the scaler can write: readable as the kind the item says, opted in, not failing, not autoscaled. */
  ghost predicate Healthy(sh: Shared, item: ScalingInfo) {
    var k := KeyOf(item);
    Named(k) && !RapidScaling(item) && !item.kind.Unknown? && k in sh.cluster &&
    var o := sh.cluster[k];
    o.spec >= 0 && o.kind == item.kind && OptedIn(o.labels) && o.condition.OtherReason? &&
        !AllowsAutoscaling(o.annotations)
  }

  ghost predicate Ready(w: World, k: Key) {
    Keyed(w.sh, w.sc, k) && w.sc.mode.Step? && k in w.sh.deny && k in w.sh.cluster &&
    var o, e := w.sh.cluster[k], w.sh.deny[k];
    e.kind == o.kind && !o.kind.Unknown? && OptedIn(o.labels) && o.condition.OtherReason? &&
        !AllowsAutoscaling(o.annotations)
  }

  /** Reading the list and ending the wait: the loop ends on the target, and otherwise the next count is on its way. */
  lemma {:induction false} WaitEnds(w: World, k: Key)
    requires Ready(w, k) && w.sc.pc.Head? && w.sh.deny[k].desired != -1
    requires w.sh.cluster[k].ready == w.sh.deny[k].spec || w.sh.cluster[k].ready == w.sh.cluster[k].spec
    ensures var t, o := w.sh.deny[k].desired, w.sh.cluster[k];
            var w' := Next(Next(w, Go(Fine)), Go(Fine));
            Ready(w', k) && w'.sc.passes == w.sc.passes + 1 && w'.sh.cluster == w.sh.cluster && w'.sc.target == t &&
            w'.sh.deny[k].desired == t && w'.sh.deny[k].spec == o.spec &&
            (o.ready == t ==> w'.sc.pc == Release(true)) &&
            (o.ready != t ==>
              w'.sc.pc.Attempt? && w'.sc.pc.replicas == w'.sc.step == NextStep(w.sc.(target := t), o.spec) &&
              w'.sc.pc.item.ready == o.ready)
  {
    var w1 := Next(w, Go(Fine));
    KeyedExec(w.sh, w.sc, k, Fine);
    RefreshFacts(k, w1.sh, w1.sc.pc.item, true);
    hide Refresh, OptedIn, AllowsAutoscaling;
    KeyedExec(w1.sh, w1.sc, k, Fine);
  }

  /** Refreshing and writing: the list still remembers the spec from before the write. */
  lemma {:induction false} WriteHappens(w: World, k: Key)
    requires Ready(w, k) && w.sc.pc.Attempt?
    ensures var w1 := Next(w, Go(Fine));
            var w2 := Next(w1, Go(Fine));
            w1.sc.pc.Write? && w1.sc.pc.replicas == w.sc.pc.replicas && w1.sc.pc.item == w.sc.pc.item &&
            w1.sh.cluster == w.sh.cluster && w1.sc.target == w.sc.target &&
            Ready(w2, k) && w2.sc.pc.Head? && w2.sc.passes == w.sc.passes && w2.sc.step == w.sc.step &&
            w2.sh.cluster == w.sh.cluster[k := w.sh.cluster[k].(spec := w.sc.pc.replicas)] &&
            w2.sh.deny[k].spec == w.sh.cluster[k].spec && w2.sh.deny[k].desired == w.sh.deny[k].desired
  {
    RefreshFacts(k, w.sh, w.sc.pc.item, true);
    hide Refresh, OptedIn, AllowsAutoscaling;
    var w1 := Next(w, Go(Fine));
    KeyedExec(w.sh, w.sc, k, Fine);
    KeyedExec(w1.sh, w1.sc, k, Fine);
  }

  lemma {:induction false} PlayConcat(w: World, a: seq<Move>, b: seq<Move>)
    ensures Play(w, a + b) == Play(Play(w, a), b)
    decreases |b|
  {
    hide Next;
    if b == [] {
      assert a + b == a;
    } else {
      var c, m := b[..|b| - 1], b[|b| - 1];
      PlayConcat(w, a, c);
      assert a + b == (a + c) + [m];
      PlaySnoc(w, a + c, m);
    }
  }

  // What a run shows of its own object: its counts on the cluster and on the list.

  function SpecOf(w: World, k: Key): int { if k in w.sh.cluster then w.sh.cluster[k].spec else 0 }
  function ReadyOf(w: World, k: Key): int { if k in w.sh.cluster then w.sh.cluster[k].ready else 0 }
  function RememberedOf(w: World, k: Key): int { if k in w.sh.deny then w.sh.deny[k].spec else 0 }
  function TargetOf(w: World, k: Key): int { if k in w.sh.deny then w.sh.deny[k].desired else 0 }

  const HALF: seq<Move> := [Go(Fine), Go(Fine)]

  lemma {:induction false} PlayHalf(w: World)
    ensures Play(w, HALF) == Next(Next(w, Go(Fine)), Go(Fine))
  {
    var g := Go(Fine);
    PlaySnoc(w, [], g);
    PlaySnoc(w, [g], g);
    assert [] + [g] == [g] && [g] + [g] == [g, g];
  }

  /** A pass whose wait ends on a count that is not the target: one write, remembered only by the next pass. */
  lemma {:induction false} PassWrites(w: World, k: Key)
    requires Ready(w, k) && w.sc.pc.Head? && TargetOf(w, k) != -1
    requires ReadyOf(w, k) != TargetOf(w, k) && (ReadyOf(w, k) == RememberedOf(w, k) || ReadyOf(w, k) == SpecOf(w, k))
    ensures var w' := Play(w, HALF + HALF);
            Ready(w', k) && w'.sc.pc.Head? && w'.sc.passes == w.sc.passes + 1 &&
            SpecOf(w', k) == w'.sc.step == NextStep(w.sc.(target := TargetOf(w, k)), SpecOf(w, k)) &&
            RememberedOf(w', k) == SpecOf(w, k) && TargetOf(w', k) == TargetOf(w, k) && ReadyOf(w', k) == ReadyOf(w, k)
    ensures var w1 := Play(w, HALF + [Go(Fine)]);
            w1.sc.pc.Write? && k in w1.sh.cluster && w1.sc.target == TargetOf(w, k) &&
                w1.sh.cluster[k].spec == SpecOf(w, k) &&
            w1.sc.pc.item.ready == ReadyOf(w, k) &&
            w1.sc.pc.replicas == NextStep(w.sc.(target := TargetOf(w, k)), SpecOf(w, k))
  {
    hide Keyed, OptedIn, AllowsAutoscaling, Exec;
    WaitEnds(w, k);
    PlayHalf(w);
    var v := Play(w, HALF);
    WriteHappens(v, k);
    PlayHalf(v);
    PlayConcat(w, HALF, HALF);
    PlaySnoc(w, HALF, Go(Fine));
  }

  /** A pass whose wait ends on the target: the loop is left. */
  lemma {:induction false} PassExits(w: World, k: Key)
    requires Ready(w, k) && w.sc.pc.Head? && TargetOf(w, k) != -1
    requires ReadyOf(w, k) == TargetOf(w, k) && (ReadyOf(w, k) == RememberedOf(w, k) || ReadyOf(w, k) == SpecOf(w, k))
    ensures var w' := Play(w, HALF);
            w'.sc.pc == Release(true) && w'.sc.passes == w.sc.passes + 1 &&
            SpecOf(w', k) == SpecOf(w, k) && TargetOf(w', k) == TargetOf(w, k)
  {
    hide Keyed, OptedIn, AllowsAutoscaling, Exec;
    WaitEnds(w, k);
    PlayHalf(w);
  }

  lemma {:induction false} StartedReady(sh: Shared, item: ScalingInfo)
    requires Healthy(sh, item)
    ensures var w, k := Started(sh, item), KeyOf(item);
            Ready(w, k) && w.sc.pc.Head? && w.sc.passes == 0 && w.sc.step == item.spec &&
                TargetOf(w, k) == item.desired &&
            RememberedOf(w, k) == item.spec && SpecOf(w, k) == sh.cluster[k].spec >= 0
  {
    hide RapidScaling, OptedIn, AllowsAutoscaling;
  }

  function Arranged(k: Key, t: int, n: int): seq<Move> {
    [Env(Retarget(k, t)), Env(Readiness(k, n))]
  }

  /** The environment sets the target of k on the list and its ready count. */
  lemma {:induction false} Arrange(w: World, k: Key, t: int, n: int)
    requires Ready(w, k)
    ensures var w' := Play(w, Arranged(k, t, n));
            Ready(w', k) && w'.sc == w.sc && SpecOf(w', k) == SpecOf(w, k) &&
                RememberedOf(w', k) == RememberedOf(w, k) &&
            TargetOf(w', k) == t && ReadyOf(w', k) == n
  {
    var a, b := Env(Retarget(k, t)), Env(Readiness(k, n));
    PlaySnoc(w, [], a);
    PlaySnoc(w, [a], b);
    assert [] + [a] == [a] && [a] + [b] == [a, b];
    hide OptedIn, AllowsAutoscaling;
  }

  ghost predicate StepsTowardTarget(w: World, k: Key) {
    w.sc.pc.Write? && k in w.sh.cluster ==> w.sc.pc.replicas == Toward(w.sh.cluster[k].spec, w.sc.target)
  }

  /** The step variable starts from the item, not from the cluster. Of a healthy object every write of every run goes
      one replica towards the target if and only if the item was not stale when the scaler started. */
  lemma {:induction false} OneStepIffFresh(sh: Shared, item: ScalingInfo)
    requires Healthy(sh, item)
    ensures (forall ms :: OthersKeepOff(KeyOf(item), ms) ==>
               StepsTowardTarget(Play(Started(sh, item), ms), KeyOf(item)))
            <==> item.spec == sh.cluster[KeyOf(item)].spec
  {
    if item.spec == sh.cluster[KeyOf(item)].spec {
      forall ms | OthersKeepOff(KeyOf(item), ms) ensures StepsTowardTarget(Play(Started(sh, item), ms), KeyOf(item)) {
        hide Started, Play, RapidScaling, OneStep;
        StepsByOne(sh, item, ms);
      }
    } else {
      StaleStart(sh, item);
    }
  }

  function StaleRun(k: Key, t: int, n: int): seq<Move> {
    Arranged(k, t, n) + (HALF + [Go(Fine)])
  }

  lemma {:induction false} StaleRunKeepsOff(k: Key, t: int, n: int)
    ensures OthersKeepOff(k, StaleRun(k, t, n))
  {
  }

  /** The target set to what the cluster has already: nothing should be written, and the stale count is. */
  lemma {:induction false} StaleStart(sh: Shared, item: ScalingInfo)
    requires Healthy(sh, item) && item.spec != sh.cluster[KeyOf(item)].spec
    ensures var k := KeyOf(item);
            var ms := StaleRun(k, sh.cluster[k].spec, item.spec);
            OthersKeepOff(k, ms) && !StepsTowardTarget(Play(Started(sh, item), ms), k) &&
            (!Near(item.spec, sh.cluster[k].spec) ==> !LagBounded(Play(Started(sh, item), ms), k))
  {
    hide Started, StepsTowardTarget, LagBounded, Ready, SpecOf, ReadyOf, RememberedOf, TargetOf, Play, Arranged, HALF,
      OthersKeepOff;
    var k := KeyOf(item);
    var c := sh.cluster[k].spec;
    var w, pre := Started(sh, item), Arranged(k, c, item.spec);
    assert c >= 0;
    StartedReady(sh, item);
    Arrange(w, k, c, item.spec);
    PassWrites(Play(w, pre), k);
    PlayConcat(w, pre, HALF + [Go(Fine)]);
    StaleRunKeepsOff(k, c, item.spec);
    StaleWrite(Play(w, StaleRun(k, c, item.spec)), k, item.spec);
  }

  lemma {:induction false} StaleWrite(w: World, k: Key, stale: int)
    requires w.sc.pc.Write? && k in w.sh.cluster && w.sc.pc.replicas == stale
    requires w.sc.target == w.sh.cluster[k].spec != stale && w.sc.pc.item.ready == stale
    ensures !StepsTowardTarget(w, k) && (!Near(stale, w.sh.cluster[k].spec) ==> !LagBounded(w, k))
  {
  }

  /** Done, one replica off the target, on the side of t. */
  ghost predicate MissesByOne(w: World, k: Key, t: int) {
    w.sc.pc == Release(true) && SpecOf(w, k) == Toward(TargetOf(w, k), t) != TargetOf(w, k)
  }

  ghost predicate AllCalm(ms: seq<Move>, k: Key) {
    forall i :: 0 <= i < |ms| ==> Calm(ms[i], k)
  }

  function BackAndForth(k: Key, s: int, t: int): seq<Move> {
    Arranged(k, t, s) + (HALF + HALF) + (Arranged(k, s, s) + HALF)
  }

  lemma {:induction false} BackAndForthIsCalm(k: Key, s: int, t: int)
    ensures AllCalm(BackAndForth(k, s, t), k)
  {
  }

  lemma {:induction false} BackAndForthMisses(w: World, k: Key, s: int, t: int)
    requires Ready(w, k) && w.sc.pc.Head? && SpecOf(w, k) == RememberedOf(w, k) == s && s != t && s != -1 && t != -1
    ensures MissesByOne(Play(w, BackAndForth(k, s, t)), k, t)
  {
    hide Ready, SpecOf, ReadyOf, RememberedOf, TargetOf, Play, Arranged, HALF;
    var up := Arranged(k, t, s) + (HALF + HALF);
    OneWay(w, k, s, t);
    var v := Play(w, up);
    Arrange(v, k, s, s);
    PassExits(Play(v, Arranged(k, s, s)), k);
    PlayConcat(v, Arranged(k, s, s), HALF);
    PlayConcat(w, up, Arranged(k, s, s) + HALF);
  }

  /** A redirect back to the spec before the last write ends the loop on the ready count the list remembers, with the
      object left one replica off the target: the exit guarantee cannot be strengthened, upwards or downwards. */
  lemma {:induction false} RedirectCanMissTarget(sh: Shared, item: ScalingInfo)
    requires Healthy(sh, item) && item.spec == sh.cluster[KeyOf(item)].spec && item.spec != item.desired &&
             item.desired != -1
    ensures exists ms :: AllCalm(ms, KeyOf(item)) && MissesByOne(Play(Started(sh, item), ms), KeyOf(item), item.desired)
  {
    hide Started, Ready, SpecOf, RememberedOf, TargetOf, Play, BackAndForth, AllCalm, MissesByOne;
    var k, s, t := KeyOf(item), item.spec, item.desired;
    assert s >= 0;
    StartedReady(sh, item);
    BackAndForthIsCalm(k, s, t);
    BackAndForthMisses(Started(sh, item), k, s, t);
  }

  /** One pass towards another target. */
  lemma {:induction false} OneWay(w: World, k: Key, s: int, t: int)
    requires Ready(w, k) && w.sc.pc.Head? && SpecOf(w, k) == RememberedOf(w, k) == s && s != t && t != -1
    ensures var w' := Play(w, Arranged(k, t, s) + (HALF + HALF));
            Ready(w', k) && w'.sc.pc.Head? && w'.sc.passes == w.sc.passes + 1 &&
            SpecOf(w', k) == w'.sc.step == Toward(s, t) && RememberedOf(w', k) == s && TargetOf(w', k) == t &&
                ReadyOf(w', k) == s
  {
    hide Ready, SpecOf, ReadyOf, RememberedOf, TargetOf, Play, Arranged, HALF;
    Arrange(w, k, t, s);
    PassWrites(Play(w, Arranged(k, t, s)), k);
    PlayConcat(w, Arranged(k, t, s), HALF + HALF);
  }

  /** On the way from t to another count redirected back to t, and one replica beyond t all the same, although nobody
      asks for anything farther any more. */
  ghost predicate Overshoots(w: World, k: Key, t: int, goal: int, ms: seq<Move>) {
    AsksNoFarther(t < goal, ms, k, t) && SpecOf(w, k) == t &&
    SpecOf(Play(w.(sh := EnvStep(w.sh, Retarget(k, t))), ms), k) == Toward(t, goal) != t
  }

  lemma {:induction false} StepIsTaken(w: World, k: Key, t: int, goal: int)
    requires Ready(w, k) && w.sc.pc.Attempt? && SpecOf(w, k) == t
    requires w.sc.pc.replicas == Toward(t, goal) && t != goal
    ensures Overshoots(w, k, t, goal, HALF)
  {
    hide Ready, Play, EnvStep, Next;
    var w0 := w.(sh := EnvStep(w.sh, Retarget(k, t)));
    StaysReady(w, k, t);
    WriteHappens(w0, k);
    PlayHalf(w0);
    ReadyKnown(w0, k);
  }

  lemma {:induction false} StaysReady(w: World, k: Key, t: int)
    requires Ready(w, k)
    ensures Ready(w.(sh := EnvStep(w.sh, Retarget(k, t))), k)
  {
    hide OptedIn, AllowsAutoscaling;
  }

  /** That one replica is reached: from any current item off its target, with a redirect back while a step is due. */
  lemma {:induction false} OvershootIsReached(sh: Shared, item: ScalingInfo)
    requires Healthy(sh, item) && item.spec == sh.cluster[KeyOf(item)].spec && item.spec != item.desired
    requires item.desired != -1
    ensures exists before, after :: OthersKeepOff(KeyOf(item), before) &&
              Overshoots(Play(Started(sh, item), before), KeyOf(item), item.spec, item.desired, after)
  {
    hide Started, Ready, Play, Overshoots;
    var k, s, t := KeyOf(item), item.spec, item.desired;
    StartedReady(sh, item);
    var w := Started(sh, item);
    Arrange(w, k, t, s);
    var w1 := Play(w, Arranged(k, t, s));
    assert SpecOf(w1, k) == RememberedOf(w1, k) == ReadyOf(w1, k) == s && TargetOf(w1, k) == t;
    assert k in w1.sh.deny && k in w1.sh.cluster by { ReadyKnown(w1, k); }
    WaitEnds(w1, k);
    PlayHalf(w1);
    PlayConcat(w, Arranged(k, t, s), HALF);
    StepIsTaken(Play(w1, HALF), k, s, t);
    assert OthersKeepOff(k, Arranged(k, t, s) + HALF);
  }

  lemma {:induction false} ReadyKnown(w: World, k: Key)
    requires Ready(w, k)
    ensures k in w.sh.deny && k in w.sh.cluster
  {
  }

  ghost predicate AllKeepTarget(ms: seq<Move>, k: Key, t: int) {
    forall i :: 0 <= i < |ms| ==> KeepsTarget(ms[i], k, t)
  }

  ghost predicate TakesPasses(w: World, n: nat) {
    w.sc.pc == Release(true) && w.sc.passes == n
  }

  /** Two passes on an object that is slow to get ready: one step, then the same count written again. */
  lemma {:induction false} SlowPasses(w: World, k: Key, s: int)
    requires Ready(w, k) && w.sc.pc.Head? && SpecOf(w, k) == RememberedOf(w, k) == s && s + 1 != -1
    ensures var w' := Play(w, Arranged(k, s + 1, s) + (HALF + HALF) + (HALF + HALF));
            Ready(w', k) && w'.sc.pc.Head? && w'.sc.passes == w.sc.passes + 2 &&
                SpecOf(w', k) == RememberedOf(w', k) == s + 1
  {
    hide Ready, SpecOf, ReadyOf, RememberedOf, TargetOf, Play, Arranged, HALF;
    OneWay(w, k, s, s + 1);
    PassWrites(Play(w, Arranged(k, s + 1, s) + (HALF + HALF)), k);
    PlayConcat(w, Arranged(k, s + 1, s) + (HALF + HALF), HALF + HALF);
  }

  function SlowRun(k: Key, s: int): seq<Move> {
    Arranged(k, s + 1, s) + (HALF + HALF) + (HALF + HALF)
  }

  function LastPass(k: Key, t: int): seq<Move> {
    Arranged(k, t, t) + HALF
  }

  lemma {:induction false} SlowRunKeepsTarget(k: Key, s: int)
    ensures AllKeepTarget(SlowRun(k, s) + LastPass(k, s + 1), k, s + 1)
  {
  }

  lemma {:induction false} SlowRunThrough(w: World, k: Key, s: int)
    requires Ready(w, k) && w.sc.pc.Head? && w.sc.passes == 0 && SpecOf(w, k) == RememberedOf(w, k) == s && s + 1 != -1
    ensures TakesPasses(Play(w, SlowRun(k, s) + LastPass(k, s + 1)), 3)
  {
    hide Ready, SpecOf, ReadyOf, RememberedOf, TargetOf, Play, Arranged, HALF;
    var v, t := Play(w, SlowRun(k, s)), s + 1;
    SlowPasses(w, k, s);
    Arrange(v, k, t, t);
    PassExits(Play(v, Arranged(k, t, t)), k);
    PlayConcat(v, Arranged(k, t, t), HALF);
    PlayConcat(w, SlowRun(k, s), LastPass(k, t));
  }

  /** The bound on passes is reached: from any spec to the next one, three passes. The second one writes the target
      again, because the stale spec the list remembers lets its wait end too early. */
  lemma {:induction false} PassBoundIsReached(sh: Shared, item: ScalingInfo)
    requires Healthy(sh, item) && item.spec == sh.cluster[KeyOf(item)].spec && item.desired == item.spec + 1
    ensures exists ms :: AllKeepTarget(ms, KeyOf(item), item.desired) &&
              TakesPasses(Play(Started(sh, item), ms), PassBound(item.spec, item.desired))
  {
    var k, s := KeyOf(item), item.spec;
    StartedReady(sh, item);
    hide Started, Ready, RememberedOf, TargetOf, Play, SlowRun, LastPass, AllKeepTarget;
    SlowRunKeepsTarget(k, s);
    SlowRunThrough(Started(sh, item), k, s);
  }

  // ----- how stale an item the lag can bear

  ghost predicate NearPc(e: ScalingInfo, sc: Scaler, spec: int) {
    match sc.pc
    case Head => Near(sc.step, spec) && (Blank(e) || Near(e.spec, spec))
    case Poll(_, remembered, _) => Near(sc.step, spec) && (Blank(e) || (Near(e.spec, spec) && Near(remembered, spec)))
    case Attempt(item, r, _) => r == sc.step && Near(r, spec) && Near(item.ready, spec) && (Blank(e) || e.spec == spec)
    case Write(item, _, r, _) => r == sc.step && Near(r, spec) && Near(item.ready, spec) && (Blank(e) || e.spec == spec)
    case _ => true
  }

  /** All a step scaler remembers of its object is at most one replica old. */
  ghost predicate NearLag(sh: Shared, sc: Scaler, k: Key) {
    Keyed(sh, sc, k) && sc.mode.Step? && !sc.pc.RapidPut? &&
    (k in sh.cluster && Looping(sc.pc) ==> k in sh.deny && NearPc(sh.deny[k], sc, sh.cluster[k].spec))
  }

  lemma {:induction false} NearLagPolled(sh: Shared, sc: Scaler, k: Key, r: (Shared, Option<ScalingInfo>))
    requires NearLag(sh, sc, k) && sc.pc.Poll? && RefreshedOn(k, sh, sc.pc.item, r)
    ensures NearLag(Polled(sc, r).0, Polled(sc, r).1, k)
  {
    hide AllowsAutoscaling, PcKeyed;
    KeyedRefresh(sh, sc, k, r);
  }

  lemma {:induction false} NearLagAttempted(sh: Shared, sc: Scaler, k: Key, r: (Shared, Option<ScalingInfo>))
    requires NearLag(sh, sc, k) && sc.pc.Attempt? && RefreshedOn(k, sh, sc.pc.item, r)
    ensures NearLag(Attempted(sc, r).0, Attempted(sc, r).1, k)
  {
    hide OptedIn, PcKeyed;
    KeyedRefresh(sh, sc, k, r);
  }

  lemma {:induction false} NearLagLocal(sh: Shared, sc: Scaler, k: Key, out: Outcome)
    requires NearLag(sh, sc, k) && !sc.pc.Poll? && !sc.pc.Attempt?
    ensures NearLag(Exec(sh, sc, out).0, Exec(sh, sc, out).1, k)
  {
    hide ExecPoll, ExecAttempt;
    KeyedExec(sh, sc, k, out);
  }

  lemma {:induction false} NearLagExec(sh: Shared, sc: Scaler, k: Key, out: Outcome)
    requires NearLag(sh, sc, k)
    ensures NearLag(Exec(sh, sc, out).0, Exec(sh, sc, out).1, k)
  {
    hide Refresh, Polled, Attempted, AllowsAutoscaling, ExecWrite, ExecHead, PcKeyed, NearPc;
    if sc.pc.Poll? || sc.pc.Attempt? {
      KeyedExec(sh, sc, k, out);
      var r := Refresh(sh, sc.pc.item, !out.GetFails?);
      PcItem(sh, sc, k);
      RefreshFacts(k, sh, sc.pc.item, !out.GetFails?);
      if sc.pc.Attempt? { NearLagAttempted(sh, sc, k, r); } else if !out.TimeoutFires? { NearLagPolled(sh, sc, k, r); }
    } else {
      NearLagLocal(sh, sc, k, out);
    }
  }

  lemma {:induction false} NearLagEnv(sh: Shared, sc: Scaler, k: Key, e: EnvMove)
    requires NearLag(sh, sc, k) && (e.Foreign? ==> e.key != k)
    ensures NearLag(EnvStep(sh, e), sc, k)
  {
    hide OptedIn;
    KeyedEnv(sh, sc, k, e);
  }

  lemma {:induction false} NearLagRun(sh: Shared, item: ScalingInfo, ms: seq<Move>)
    requires Healthy(sh, item) && Near(item.spec, sh.cluster[KeyOf(item)].spec) && OthersKeepOff(KeyOf(item), ms)
    ensures var w := Play(Started(sh, item), ms); NearLag(w.sh, w.sc, KeyOf(item))
  {
    hide Exec, EnvStep, RapidScaling, OptedIn, AllowsAutoscaling;
    if ms != [] {
      var before, m := ms[..|ms| - 1], ms[|ms| - 1];
      assert forall i :: 0 <= i < |before| ==> before[i] == ms[i];
      NearLagRun(sh, item, before);
      var w := Play(Started(sh, item), before);
      hide NearLag, Started;
      if m.Go? { NearLagExec(w.sh, w.sc, KeyOf(item), m.out); } else { NearLagEnv(w.sh, w.sc, KeyOf(item), m.e); }
    }
  }

  /** At a step decided, the ready count is at most one off the spec, and at most two off once the step is written. */
  ghost predicate LagBounded(w: World, k: Key) {
    w.sc.pc.Write? && k in w.sh.cluster ==>
      Near(w.sc.pc.item.ready, w.sh.cluster[k].spec) && -2 <= w.sc.pc.item.ready - w.sc.pc.replicas <= 2
  }

  /** How stale an item the bounded lag can bear: of a healthy object, it holds in every run if and only if the item the
      scaler was started on was at most one replica off the cluster. */
  lemma {:induction false} LagIff(sh: Shared, item: ScalingInfo)
    requires Healthy(sh, item)
    ensures (forall ms :: OthersKeepOff(KeyOf(item), ms) ==> LagBounded(Play(Started(sh, item), ms), KeyOf(item)))
            <==> Near(item.spec, sh.cluster[KeyOf(item)].spec)
  {
    if Near(item.spec, sh.cluster[KeyOf(item)].spec) {
      forall ms | OthersKeepOff(KeyOf(item), ms) ensures LagBounded(Play(Started(sh, item), ms), KeyOf(item)) {
        hide Started, Play, Healthy;
        NearLagRun(sh, item, ms);
      }
    } else {
      StaleStart(sh, item);
    }
  }
}

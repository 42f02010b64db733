/** How a scaler comes to an end that is not a good one: what it refuses to write, how it gives up, what it leaves on
    the list, and how soon it is gone once its object is opted out or deleted. */
module ScalerEndings {
  import opened Items
  import opened DenyList
  import opened ScalerMachine
  import opened ScalerSafety
  import opened ScalerProgress
  import opened ScalerLimits

  // ----- what is written

  /** Reported as stuck by the cluster; a RedisCluster never is. */
  predicate Stuck(o: Obj) {
    o.condition == ProgressDeadlineExceeded && o.kind != RedisCluster
  }

  predicate HasOptedIn(o: Obj) {
    "scaler/opt-in" in o.labels && o.labels["scaler/opt-in"] in ["1", "t", "T", "TRUE", "true", "True"]
  }

  /** Before a write there is always a refresh, and that has found the object opted in and not stuck. */
  lemma {:induction false} OnlyHealthyIsWritten(w: World, k: Key, m: Move)
    requires Keyed(w.sh, w.sc, k) && !w.sc.pc.Write? && Next(w, m).sc.pc.Write?
    ensures w.sc.pc.Attempt? && m.Go? && k in w.sh.cluster && HasOptedIn(w.sh.cluster[k]) && !Stuck(w.sh.cluster[k])
    ensures Next(w, m).sh.cluster == w.sh.cluster
  {
    hide AllowsAutoscaling, EnvStep;
    if w.sc.pc.Poll? || w.sc.pc.Attempt? { RefreshFacts(k, w.sh, w.sc.pc.item, !m.out.GetFails?); }
  }

  // ----- giving up

  /** The list says of k that it failed, why, and what target it failed on the way to. */
  ghost predicate Failed(sh: Shared, k: Key, message: Message, target: int) {
    k in sh.deny && sh.deny[k].failure && !sh.deny[k].isBeingScaled && sh.deny[k].failureMessage == message &&
    sh.deny[k].desired == target
  }

  lemma {:induction false} EnvKeepsPc(w: World, ms: seq<Move>)
    requires OnlyEnv(ms)
    ensures Play(w, ms).sc == w.sc
  {
    hide EnvStep;
    if ms != [] { EnvKeepsPc(w, ms[..|ms| - 1]); }
  }

  ghost predicate OnlyEnv(ms: seq<Move>) {
    forall i :: 0 <= i < |ms| ==> ms[i].Env?
  }

  /** After this step and the scaler's next one, with ms in between, the failure is on the list; the step after that
      takes the key off it. */
  ghost predicate GivesUp(w: World, k: Key, out: Outcome, ms: seq<Move>, next: Outcome, message: Message, target: int) {
    var w' := Next(Play(Next(w, Go(out)), ms), Go(next));
    Failed(w'.sh, k, message, target) && w'.sc.pc == Release(false)
  }

  lemma {:induction false} MarkRecords(
      w: World, k: Key, out: Outcome, ms: seq<Move>, next: Outcome, message: Message, target: int)
    requires OnlyEnv(ms)
    requires var w' := Next(w, Go(out));
             w'.sc.pc.Mark? && KeyOf(w'.sc.pc.item) == k && !w'.sc.pc.item.isBeingScaled &&
             w'.sc.pc.message == message && w'.sc.pc.markTarget == target
    ensures GivesUp(w, k, out, ms, next, message, target)
  {
    EnvKeepsPc(Next(w, Go(out)), ms);
    var v := Play(Next(w, Go(out)), ms);
    hide Play;
    assert Next(v, Go(next)).sh.deny[k] == Marked(v.sc.pc.item, true, message, target);
  }

  /** A wait that times out, or finds the object reported as stuck, of whatever kind, gives up; the failure is on the
      list before the key is off it, whatever happens in between. */
  lemma {:induction false} WaitGivesUp(w: World, k: Key, out: Outcome, ms: seq<Move>, next: Outcome)
    requires OnlyEnv(ms) && Keyed(w.sh, w.sc, k) && w.sc.pc.Poll?
    ensures out.TimeoutFires? ==> GivesUp(w, k, out, ms, next, TimeoutMessage, w.sc.pc.item.desired)
    ensures !out.TimeoutFires? && !out.GetFails? && k in w.sh.cluster && k in w.sh.deny &&
            w.sh.cluster[k].condition == ProgressDeadlineExceeded &&
            w.sh.deny[k].kind == w.sh.cluster[k].kind != Unknown ==>
              GivesUp(w, k, out, ms, next, DeadlineMessage, w.sc.pc.waitTarget)
  {
    RefreshFacts(k, w.sh, w.sc.pc.item, !out.GetFails?);
    hide Refresh, GivesUp, AllowsAutoscaling;
    if out.TimeoutFires? {
      MarkRecords(w, k, out, ms, next, TimeoutMessage, w.sc.pc.item.desired);
    } else if !out.GetFails? && k in w.sh.cluster && k in w.sh.deny &&
              w.sh.cluster[k].condition == ProgressDeadlineExceeded &&
              w.sh.deny[k].kind == w.sh.cluster[k].kind != Unknown {
      MarkRecords(w, k, out, ms, next, DeadlineMessage, w.sc.pc.waitTarget);
    }
  }

  /** An attempt to scale an object that cannot be read, is stuck or has been opted out, and an update that fails, give
      up in the same way, with the target read last. */
  lemma {:induction false} ScalingGivesUp(w: World, k: Key, out: Outcome, ms: seq<Move>, next: Outcome)
    requires OnlyEnv(ms) && Keyed(w.sh, w.sc, k)
    ensures w.sc.pc.Attempt? &&
            (out.GetFails? || k !in w.sh.cluster || Stuck(w.sh.cluster[k]) || !HasOptedIn(w.sh.cluster[k])) ==>
              GivesUp(w, k, out, ms, next, ScaleFailedMessage, w.sc.target)
    ensures w.sc.pc.Write? && (out.UpdateFails? || (out.UpdateConflicts? && w.sc.pc.left <= 1)) ==>
              GivesUp(w, k, out, ms, next, ScaleFailedMessage, w.sc.target)
  {
    if w.sc.pc.Attempt? { RefreshFacts(k, w.sh, w.sc.pc.item, !out.GetFails?); }
    hide Refresh, GivesUp, AllowsAutoscaling;
    if w.sc.pc.Attempt? &&
       (out.GetFails? || k !in w.sh.cluster || Stuck(w.sh.cluster[k]) || !HasOptedIn(w.sh.cluster[k])) {
      MarkRecords(w, k, out, ms, next, ScaleFailedMessage, w.sc.target);
    }
    if w.sc.pc.Write? && (out.UpdateFails? || (out.UpdateConflicts? && w.sc.pc.left <= 1)) {
      MarkRecords(w, k, out, ms, next, ScaleFailedMessage, w.sc.target);
    }
  }

  // ----- trying again

  /** n updates in a row that conflict, each after its own refresh. */
  function Conflicts(n: nat): seq<Move> {
    if n == 0 then [] else Conflicts(n - 1) + [Go(Fine)] + [Go(UpdateConflicts)]
  }

  lemma {:induction false} OneConflict(w: World, k: Key)
    requires Ready(w, k) && w.sc.pc.Attempt?
    ensures var w' := Next(Next(w, Go(Fine)), Go(UpdateConflicts));
            w'.sh.cluster == w.sh.cluster && w'.sc.target == w.sc.target &&
            if w.sc.pc.left > 1
            then Ready(w', k) && w'.sc.pc == Attempt(w.sc.pc.item, w.sc.pc.replicas, w.sc.pc.left - 1)
            else w'.sc.pc.Mark?
  {
    RefreshFacts(k, w.sh, w.sc.pc.item, true);
    KeyedExec(w.sh, w.sc, k, Fine);
    var w1 := Next(w, Go(Fine));
    KeyedExec(w1.sh, w1.sc, k, UpdateConflicts);
    hide Refresh, OptedIn, AllowsAutoscaling, Keyed;
  }

  lemma {:induction false} SomeConflicts(w: World, k: Key, n: nat)
    requires Ready(w, k) && w.sc.pc.Attempt? && n < w.sc.pc.left
    ensures var w' := Play(w, Conflicts(n));
            Ready(w', k) && w'.sc.pc == Attempt(w.sc.pc.item, w.sc.pc.replicas, w.sc.pc.left - n) &&
            w'.sh.cluster == w.sh.cluster && w'.sc.target == w.sc.target
  {
    hide Ready, Next;
    if n > 0 {
      SomeConflicts(w, k, n - 1);
      OneConflict(Play(w, Conflicts(n - 1)), k);
      PlaySnoc(w, Conflicts(n - 1), Go(Fine));
      PlaySnoc(w, Conflicts(n - 1) + [Go(Fine)], Go(UpdateConflicts));
    }
  }

  /** A step that is due is tried five times: after up to four conflicts it can still be written, and is not lost; the
      fifth ends it. */
  lemma {:induction false} FiveTries(w: World, k: Key, out: Outcome, n: nat)
    requires w.sc.pc.Poll? && Next(w, Go(out)).sc.pc.Attempt? && Ready(Next(w, Go(out)), k)
    ensures var w' := Next(w, Go(out));
            if n < 5 then SpecOf(Play(Play(w', Conflicts(n)), HALF), k) == w'.sc.pc.replicas
            else n == 5 ==> Play(w', Conflicts(n)).sc.pc.Mark? && SpecOf(Play(w', Conflicts(n)), k) == SpecOf(w', k)
  {
    hide Ready;
    var w' := Next(w, Go(out));
    assert w'.sc.pc.left == 5 by { hide Refresh, AllowsAutoscaling, Play, SpecOf; }
    hide Next;
    if n < 5 {
      SomeConflicts(w', k, n);
      var v := Play(w', Conflicts(n));
      WriteHappens(v, k);
      PlayHalf(v);
      ReadyKnown(v, k);
    } else if n == 5 {
      SomeConflicts(w', k, 4);
      OneConflict(Play(w', Conflicts(4)), k);
      PlaySnoc(w', Conflicts(4), Go(Fine));
      PlaySnoc(w', Conflicts(4) + [Go(Fine)], Go(UpdateConflicts));
    }
  }

  // ----- opted out or deleted

  /** The object is gone, or has been opted out, and what the list has of it cannot be refreshed. */
  ghost predicate Gone(w: World, k: Key) {
    Keyed(w.sh, w.sc, k) && !w.sc.pc.RapidPut? && (w.sc.mode.Rapid? ==> !w.sc.pc.Head?) &&
    (Looping(w.sc.pc) && k in w.sh.cluster ==> k in w.sh.deny && Blank(w.sh.deny[k]))
  }

  /** How many steps of its own a scaler has left then. */
  function StepsLeft(pc: Pc): nat {
    match pc
    case RapidPut => 6
    case Write(_, _, _, _) => 5
    case Head => 4
    case Attempt(_, _, _) => 3
    case Poll(_, _, _) => 3
    case Mark(_, _, _) => 2
    case Release(_) => 1
    case Finished(_) => 0
  }

  predicate EndsWell(pc: Pc) {
    pc == Release(true) || pc == Finished(true)
  }

  /** One step nearer to the end, and not to a good one. */
  ghost predicate NearerTheEnd(w: World, w': World) {
    (StepsLeft(w'.sc.pc) < StepsLeft(w.sc.pc) || w.sc.pc.Finished?) &&
    (w.sc.mode.Step? && !EndsWell(w.sc.pc) ==> w'.sc.mode.Step? && !EndsWell(w'.sc.pc))
  }

  lemma {:induction false} GoneUnread(w: World, k: Key, out: Outcome)
    requires Gone(w, k) && (w.sc.pc.Poll? || w.sc.pc.Attempt?)
    ensures Gone(Next(w, Go(out)), k) && NearerTheEnd(w, Next(w, Go(out)))
  {
    KeyedExec(w.sh, w.sc, k, out);
    RefreshFacts(k, w.sh, w.sc.pc.item, !out.GetFails?);
    hide Refresh, AllowsAutoscaling, Keyed, OptedIn, Decide;
  }

  lemma {:induction false} GoneWritten(w: World, k: Key, out: Outcome)
    requires Gone(w, k) && w.sc.pc.Write?
    ensures Gone(Next(w, Go(out)), k) && NearerTheEnd(w, Next(w, Go(out)))
  {
    KeyedExec(w.sh, w.sc, k, out);
    hide Keyed;
  }

  lemma {:induction false} GoneLocally(w: World, k: Key, out: Outcome)
    requires Gone(w, k) && !w.sc.pc.Poll? && !w.sc.pc.Attempt? && !w.sc.pc.Write?
    ensures Gone(Next(w, Go(out)), k) && NearerTheEnd(w, Next(w, Go(out)))
  {
    KeyedExec(w.sh, w.sc, k, out);
    hide ExecPoll, ExecAttempt, ExecWrite, Keyed;
  }

  lemma {:induction false} GoneGoesOn(w: World, k: Key, out: Outcome)
    requires Gone(w, k)
    ensures Gone(Next(w, Go(out)), k) && NearerTheEnd(w, Next(w, Go(out)))
  {
    hide Gone, NearerTheEnd, Next;
    if w.sc.pc.Poll? || w.sc.pc.Attempt? { GoneUnread(w, k, out); }
    else if w.sc.pc.Write? { GoneWritten(w, k, out); }
    else { GoneLocally(w, k, out); }
  }

  lemma {:induction false} GoneInEnv(w: World, k: Key, e: EnvMove)
    requires Gone(w, k) && (e.Foreign? ==> e.key != k)
    ensures Gone(Next(w, Env(e)), k)
  {
    KeyedEnv(w.sh, w.sc, k, e);
    hide Keyed, OptedIn;
  }

  /** The scaler's own steps among the moves. */
  function Own(ms: seq<Move>): nat {
    if ms == [] then 0 else Own(ms[..|ms| - 1]) + if ms[|ms| - 1].Go? then 1 else 0
  }

  lemma {:induction false} GoneRun(w: World, k: Key, ms: seq<Move>)
    requires Gone(w, k) && OthersKeepOff(k, ms)
    ensures Gone(Play(w, ms), k)
    ensures StepsLeft(Play(w, ms).sc.pc) + Own(ms) <= StepsLeft(w.sc.pc) || Play(w, ms).sc.pc.Finished?
    ensures w.sc.mode.Step? && !EndsWell(w.sc.pc) ==> Play(w, ms).sc.mode.Step? && !EndsWell(Play(w, ms).sc.pc)
  {
    hide Gone, Next, StepsLeft;
    if ms != [] {
      var before, m := ms[..|ms| - 1], ms[|ms| - 1];
      assert forall i :: 0 <= i < |before| ==> before[i] == ms[i];
      GoneRun(w, k, before);
      var v := Play(w, before);
      if m.Go? {
        GoneGoesOn(v, k, m.out);
        FinishedIsLast(v, m.out);
      } else {
        GoneInEnv(v, k, m.e);
        assert Next(v, m).sc == v.sc by { EnvKeepsScaler(v, m.e); }
      }
    }
  }

  lemma {:induction false} FinishedIsLast(w: World, out: Outcome)
    ensures w.sc.pc.Finished? ==> Next(w, Go(out)).sc.pc.Finished?
    ensures StepsLeft(w.sc.pc) == 0 ==> w.sc.pc.Finished?
  {
    hide Refresh, Decide, AllowsAutoscaling;
  }

  lemma {:induction false} EnvKeepsScaler(w: World, e: EnvMove)
    ensures Next(w, Env(e)).sc == w.sc
  {
    hide EnvStep;
  }

  /** What an opt-out or a deletion does to an object that is being scaled. */
  predicate TakesAway(sh: Shared, k: Key, e: EnvMove) {
    match e
    case Deletion(q) => q == k
    case OptOut(q, labels) =>
      q == k && k in sh.cluster && k in sh.deny && sh.deny[k].isBeingScaled &&
      !("scaler/opt-in" in labels && labels["scaler/opt-in"] in ["1", "t", "T", "TRUE", "true", "True"])
    case _ => false
  }

  /** A scaler whose object is opted out or deleted has left the list after five more steps of its own at most, whatever
      it was doing and whatever happens meanwhile; and not with success, if it is a step scaler that had not reached its
      target by then. (A rapid scaler that has not yet put its item on the list again is not told.) */
  lemma {:induction false} LeavesSoon(w: World, k: Key, e: EnvMove, ms: seq<Move>)
    requires Keyed(w.sh, w.sc, k) && !w.sc.pc.RapidPut? && (w.sc.mode.Rapid? ==> !w.sc.pc.Head?)
    requires TakesAway(w.sh, k, e) && OthersKeepOff(k, ms)
    ensures var w' := Play(w.(sh := EnvStep(w.sh, e)), ms);
            (Own(ms) >= 5 ==> w'.sc.pc.Finished?) &&
            (w.sc.mode.Step? && !EndsWell(w.sc.pc) ==> !EndsWell(w'.sc.pc))
  {
    hide Play;
    var w0 := w.(sh := EnvStep(w.sh, e));
    KeyedEnv(w.sh, w.sc, k, e);
    assert Gone(w0, k) by { hide Keyed; }
    GoneRun(w0, k, ms);
    FinishedIsLast(Play(w0, ms), Fine);
  }
}

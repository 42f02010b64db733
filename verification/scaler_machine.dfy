/** A scaler goroutine as a state machine over the memory it shares with everybody else: the cluster objects and
    the deny list. One step of the machine is one deny-list call, one refresh, or one update of the cluster;
    between two steps the environment may do anything it can do to that memory. */
module ScalerMachine {
  import opened Items
  import opened DenyList

  datatype Shared = Shared(cluster: map<Key, Obj>, deny: map<Key, ScalingInfo>)

  // ----- the environment

  datatype EnvMove =
    | Readiness(key: Key, ready: int)              // replicas become ready or unready
    | Reports(key: Key, condition: Condition)      // the cluster reports a condition
    | Retarget(key: Key, target: int)              // another reconcile changes the target of a listed item
    | OptOut(key: Key, labels: map<string, string>) // the opt-in label goes; a running scaler is told through the list
    | Deletion(key: Key)                           // the object is deleted, and taken off the list
    | Foreign(key: Key, obj: Option<Obj>, entry: Option<ScalingInfo>) // to the object and entry of another key

  function SetOrDrop<T>(m: map<Key, T>, k: Key, v: Option<T>): map<Key, T> {
    if v.Some? then m[k := v.value] else m - {k}
  }

  function EnvStep(sh: Shared, e: EnvMove): Shared {
    match e
    case Readiness(k, n) =>
      if k in sh.cluster then sh.(cluster := sh.cluster[k := sh.cluster[k].(ready := n)]) else sh
    case Reports(k, c) =>
      if k in sh.cluster then sh.(cluster := sh.cluster[k := sh.cluster[k].(condition := c)]) else sh
    case Retarget(k, t) =>
      if k in sh.deny && Named(k) then sh.(deny := sh.deny[k := sh.deny[k].(desired := t)]) else sh
    case OptOut(k, labels) =>
      if k in sh.cluster && !OptedIn(labels) then
        Shared(sh.cluster[k := sh.cluster[k].(labels := labels)],
               if k in sh.deny && sh.deny[k].isBeingScaled
               then sh.deny[k := Marked(BLANK.(ns := k.ns, name := k.name), true, OptedOutMessage, -1)]
               else sh.deny)
      else sh
    case Deletion(k) => Shared(sh.cluster - {k}, sh.deny - {k})
    case Foreign(k, obj, entry) => Shared(SetOrDrop(sh.cluster, k, obj), SetOrDrop(sh.deny, k, entry))
  }

  // ----- the refresh

  /** GetRefreshedScalingItem: the deny list says which object to read and what its target is; the cluster says the
      rest; the list gets the result. Nothing is written when the object cannot be read. */
  function Refresh(sh: Shared, info: ScalingInfo, getOk: bool): (Shared, Option<ScalingInfo>) {
    var listed := Lookup(sh.deny, info).0;
    var k := KeyOf(listed);
    if listed.kind.Unknown? || !getOk || k !in sh.cluster || sh.cluster[k].kind != listed.kind then (sh, None)
    else
      var item := Convert(k, sh.cluster[k]).(isBeingScaled := listed.isBeingScaled);
      var deny := sh.deny[k := item.(desired := listed.desired)];
      (sh.(deny := deny), Some(Lookup(deny, item).0))
  }

  /** A refresh asked with an item of key k either changes nothing, or finds the object and records it under k with
      the target the list had, or the item's own when the list has no entry. */
  ghost predicate RefreshedOn(k: Key, sh: Shared, info: ScalingInfo, refreshed: (Shared, Option<ScalingInfo>)) {
    var (sh', r) := refreshed;
    var listed := if k in sh.deny then sh.deny[k] else info;
    match r
    case None => sh' == sh
    case Some(now) =>
      k in sh.cluster && !listed.kind.Unknown? && sh.cluster[k].kind == listed.kind &&
      sh'.cluster == sh.cluster && sh'.deny == sh.deny[k := now] && KeyOf(now) == k &&
      now == Convert(k, sh.cluster[k]).(isBeingScaled := listed.isBeingScaled, desired := listed.desired)
  }

  lemma {:induction false} RefreshFacts(k: Key, sh: Shared, info: ScalingInfo, getOk: bool)
    requires Named(k) && KeyOf(info) == k && (k in sh.deny ==> KeyOf(sh.deny[k]) == k)
    ensures RefreshedOn(k, sh, info, Refresh(sh, info, getOk))
    ensures Refresh(sh, info, getOk).1.Some? <==>
            var listed := if k in sh.deny then sh.deny[k] else info;
            getOk && k in sh.cluster && !listed.kind.Unknown? && sh.cluster[k].kind == listed.kind
  {
    var listed := Lookup(sh.deny, info).0;
    if k in sh.cluster {
      var item := Convert(k, sh.cluster[k]).(isBeingScaled := listed.isBeingScaled);
      assert KeyOf(item.(desired := listed.desired)) == k && KeyOf(item) == k;
    }
  }

  /** What the list has of an object after a refresh of it: everything the cluster says, and whether it says that the
      object is stuck; the target and the mark stay. */
  lemma {:induction false} RefreshReads(k: Key, sh: Shared, info: ScalingInfo)
    requires Named(k) && KeyOf(info) == k && k in sh.deny && KeyOf(sh.deny[k]) == k && k in sh.cluster
    requires sh.deny[k].kind == sh.cluster[k].kind != Unknown
    ensures var r, o, e := Refresh(sh, info, true), sh.cluster[k], sh.deny[k];
            r.1.Some? && k in r.0.deny && r.0.deny[k] == r.1.value &&
            var now := r.1.value;
            now.spec == o.spec && now.ready == o.ready && now.limits == o.limits && now.labels == o.labels &&
            now.annotations == o.annotations && now.condition == o.condition && now.kind == o.kind &&
            now.desired == e.desired && now.isBeingScaled == e.isBeingScaled &&
            (now.failure <==> o.condition == ProgressDeadlineExceeded && o.kind != RedisCluster)
  {
    RefreshFacts(k, sh, info, true);
  }

  // ----- the scaler

  datatype Mode = Step | Rapid

  datatype Pc =
    | RapidPut                               // RapidScale is about to put the item on the list again
    | Head                                                           // StepScale is about to read the list
    | Poll(item: ScalingInfo, remembered: int, waitTarget: int)      // in WaitForReady, before a refresh or the timeout
    | Attempt(item: ScalingInfo, replicas: int, left: nat)           // in DoScaling, before a refresh
    | Write(item: ScalingInfo, latest: ScalingInfo, replicas: int, left: nat) // in DoScaling, before the update
    | Mark(item: ScalingInfo, message: Message, markTarget: int)     // about to record a failure on the list
    | Release(ok: bool)                                              // about to leave the list
    | Finished(ok: bool)

  /** item: what ScaleOrStepScale was given. outer, step, target, initial: the variables of StepScale (deploymentItem
      outside the loop body, stepReplicaCount, desiredReplicaCount, initialDesiredReplicaCount).
      The rest are history variables no step reads: the specs written so far, the extremes of the start and the targets
      read so far, and the number of loop passes begun. */
  datatype Scaler = Scaler(
    mode: Mode, item: ScalingInfo, outer: ScalingInfo, step: int, target: int, initial: int, pc: Pc,
    specs: seq<int>, lo: int, hi: int, passes: nat)

  /** The nondeterminism of one step: what the clock and the API server do. */
  datatype Outcome = Fine | TimeoutFires | GetFails | UpdateConflicts | UpdateFails

  const RETRIES: nat := 5

  /** What ScaleOrStepScale starts once the item is on the list. */
  function Fresh(item: ScalingInfo): Scaler {
    var listed := item.(isBeingScaled := true);
    if RapidScaling(item)
    then Scaler(Rapid, listed, listed, item.spec, item.desired, item.desired, RapidPut,
                [item.spec], Min(item.spec, item.desired), Max(item.spec, item.desired), 0)
    else Scaler(Step, listed, listed, item.spec, item.desired, item.desired, Head, [item.spec], item.spec, item.spec, 0)
  }

  /** A write, or the decision not to write, is over: the next loop pass, or the end of RapidScale. */
  function AfterScaling(sc: Scaler): Scaler {
    sc.(pc := if sc.mode.Step? then Head else Release(true))
  }

  /** DoScaling up to its first refresh: on autoscaled objects it only ever scales up. */
  function EnterScaling(sc: Scaler, item: ScalingInfo, replicas: int): Scaler {
    if AllowsAutoscaling(item.annotations) && replicas <= item.spec then AfterScaling(sc)
    else sc.(pc := Attempt(item, replicas, RETRIES))
  }

  /** The step towards the target; the count left from the previous pass when the spec is already there. */
  function NextStep(sc: Scaler, spec: int): int {
    if spec < sc.target then spec + 1 else if spec > sc.target then spec - 1 else sc.step
  }

  /** What follows a wait that ended well with `item`. */
  function Decide(sc: Scaler, item: ScalingInfo): Scaler {
    if sc.mode.Rapid? then EnterScaling(sc, item, sc.target)
    else
      var next := sc.(step := NextStep(sc, item.spec));
      if item.ready == item.desired then next.(pc := Release(true)) else EnterScaling(next, item, next.step)
  }

  function Failing(sc: Scaler, item: ScalingInfo, message: Message, target: int): Scaler {
    sc.(pc := Mark(item.(isBeingScaled := false), message, target))
  }

  /** One pass of the polling loop of WaitForReady. */
  function ExecPoll(sh: Shared, sc: Scaler, out: Outcome): (Shared, Scaler)
    requires sc.pc.Poll?
  {
    if out.TimeoutFires? then (sh, Failing(sc, sc.pc.item, TimeoutMessage, sc.pc.item.desired))
    else Polled(sc, Refresh(sh, sc.pc.item, !out.GetFails?))
  }

  /** When the refresh fails the code removes the key of the zero item it got back, not its own. */
  function Polled(sc: Scaler, refreshed: (Shared, Option<ScalingInfo>)): (Shared, Scaler)
    requires sc.pc.Poll?
  {
    var Poll(item, remembered, waitTarget) := sc.pc;
    match refreshed
    case (sh, None) => (sh.(deny := sh.deny - {ZERO_KEY}), sc.(pc := Release(false)))
    case (sh, Some(now)) =>
      if now.condition.ProgressDeadlineExceeded? then (sh, Failing(sc, now, DeadlineMessage, waitTarget))
      else if now.ready == remembered || now.spec == now.ready then (sh, Decide(sc, now))
      else (sh, sc.(pc := Poll(now, remembered, waitTarget)))
  }

  function ExecAttempt(sh: Shared, sc: Scaler, out: Outcome): (Shared, Scaler)
    requires sc.pc.Attempt?
  {
    Attempted(sc, Refresh(sh, sc.pc.item, !out.GetFails?))
  }

  function Attempted(sc: Scaler, refreshed: (Shared, Option<ScalingInfo>)): (Shared, Scaler)
    requires sc.pc.Attempt?
  {
    var Attempt(item, replicas, left) := sc.pc;
    match refreshed
    case (sh, None) => (sh, Failing(sc, item, ScaleFailedMessage, sc.target))
    case (sh, Some(now)) =>
      if now.failure || !OptedIn(now.labels) then (sh, Failing(sc, item, ScaleFailedMessage, sc.target))
      else (sh, sc.(pc := Write(item, now, replicas, left)))
  }

  function ExecWrite(sh: Shared, sc: Scaler, out: Outcome): (Shared, Scaler)
    requires sc.pc.Write?
  {
    var Write(item, latest, replicas, left) := sc.pc;
    var k := KeyOf(latest);
    if out.UpdateConflicts? && left > 1 then (sh, sc.(pc := Attempt(item, replicas, left - 1)))
    else if out.UpdateConflicts? || out.UpdateFails? || k !in sh.cluster || sh.cluster[k].kind != latest.kind
    then (sh, Failing(sc, item, ScaleFailedMessage, sc.target))
    else (sh.(cluster := sh.cluster[k := sh.cluster[k].(spec := replicas)]),
          AfterScaling(sc.(specs := sc.specs + [replicas])))
  }

  function ExecHead(sh: Shared, sc: Scaler): Scaler {
    var item := Lookup(sh.deny, sc.outer).0;
    var target := if item.desired == -1 then sc.initial else item.desired;
    sc.(outer := item, target := target, pc := Poll(item, item.spec, item.desired),
        lo := Min(sc.lo, target), hi := Max(sc.hi, target), passes := sc.passes + 1)
  }

  /** One atomic step. */
  function Exec(sh: Shared, sc: Scaler, out: Outcome): (Shared, Scaler) {
    match sc.pc
    case RapidPut =>
      (sh.(deny := sh.deny[KeyOf(sc.item) := sc.item.(desired := sc.target)]),
       sc.(pc := Poll(sc.item, sc.item.spec, sc.item.desired)))
    case Head => (sh, ExecHead(sh, sc))
    case Poll(_, _, _) => ExecPoll(sh, sc, out)
    case Attempt(_, _, _) => ExecAttempt(sh, sc, out)
    case Write(_, _, _, _) => ExecWrite(sh, sc, out)
    case Mark(item, message, target) =>
      (sh.(deny := sh.deny[KeyOf(item) := Marked(item, true, message, target)]), sc.(pc := Release(false)))
    case Release(ok) => (sh.(deny := sh.deny - {KeyOf(sc.item)}), sc.(pc := Finished(ok)))
    case Finished(_) => (sh, sc)
  }

  // ----- runs

  datatype Move = Env(e: EnvMove) | Go(out: Outcome)

  datatype World = World(sh: Shared, sc: Scaler)

  function Next(w: World, m: Move): World {
    match m
    case Env(e) => w.(sh := EnvStep(w.sh, e))
    case Go(out) => var (sh, sc) := Exec(w.sh, w.sc, out); World(sh, sc)
  }

  function Play(w: World, ms: seq<Move>): World {
    if ms == [] then w else Next(Play(w, ms[..|ms| - 1]), ms[|ms| - 1])
  }

  /** The world right after "check the list, then put the item on it". */
  function Started(sh: Shared, item: ScalingInfo): World {
    World(sh.(deny := sh.deny[KeyOf(item) := item.(isBeingScaled := true)]), Fresh(item))
  }

  /** Foreign moves are those of others: they do not touch the scaler's own key. */
  predicate OthersKeepOff(k: Key, ms: seq<Move>) {
    forall i :: 0 <= i < |ms| && ms[i].Env? && ms[i].e.Foreign? ==> ms[i].e.key != k
  }

  lemma PlaySnoc(w: World, ms: seq<Move>, m: Move)
    ensures Play(w, ms + [m]) == Next(Play(w, ms), m)
  {
    assert (ms + [m])[..|ms|] == ms;
  }
}

/** The scaler as the code has it: loops that update local variables, the shared deny list and the cluster. Every method
    is proved to run the machine of ScalerMachine, move for move, so what is proved there of all runs holds of it. */
module ScalerMethods {
  import opened Items
  import opened DenyList
  import opened Concurrent
  import opened ScalerMachine
  import opened ScalerSafety
  import opened ScalerProgress
  import opened ScalerRapid
  import opened ScalerAutoscaled

  /** How a call ends: with a value of Go's error type (ok means nil), or not within the moves given. */
  datatype Status = Suspended | Returned(ok: bool)

  datatype PollResult = NoTurn | TimedOut | Gone | Seen(now: ScalingInfo)

  datatype UpdateResult = Updated | Conflict | Rejected

  class Operator {
    var cluster: map<Key, Obj>
    const deny: ConcurrentSlice
    /** The moves still to come: what others do, and the outcomes of the clock and the API server. */
    var script: seq<Move>

    // The run so far: where it started, all its moves, those made, and where the machine stands.
    ghost var start: World
    ghost var plan: seq<Move>
    ghost var made: seq<Move>
    ghost var sc: Scaler

    ghost function Memory(): Shared
      reads this, deny, deny.backing
      requires deny.Valid()
    {
      Shared(cluster, deny.Entries())
    }

    /** Memory and machine are where the moves made so far lead from the start. */
    ghost predicate InStep()
      reads this, deny, deny.backing
      ensures InStep() ==> deny.Sound()
    {
      deny.Sound() && World(Memory(), sc) == Play(start, made) && made + script == plan && AllWellKeyed(script)
    }

    /** The same when memory was still `before`, and the move m is being made. */
    ghost predicate OnTurn(before: Shared, m: Move)
      reads this`sc, this`start, this`made, this`plan, this`script
    {
      World(before, sc) == Play(start, made) && made + [m] + script == plan && AllWellKeyed(script)
    }

    constructor (cluster: map<Key, Obj>, script: seq<Move>)
      ensures this.cluster == cluster && this.script == script && fresh(deny) && fresh(deny.backing)
      ensures deny.Sound() && deny.Contents() == [] && Memory() == Shared(cluster, map[])
    {
      this.cluster := cluster;
      this.script := script;
      deny := new ConcurrentSlice();
    }

    ghost method Record(before: Shared, m: Move)
      requires deny.Sound() && OnTurn(before, m) && Memory() == Next(World(before, sc), m).sh
      modifies this`sc, this`made
      ensures InStep() && sc == Next(World(before, old(sc)), m).sc
    {
      PlaySnoc(start, made, m);
      sc := Next(World(before, sc), m).sc;
      made := made + [m];
    }

    /** What the environment does to the memory, through the same list methods. */
    method Disturb(e: EnvMove)
      requires deny.Sound() && WellKeyed(Env(e))
      modifies this`cluster, deny, deny.backing
      ensures deny.Sound() && (deny.backing == old(deny.backing) || fresh(deny.backing))
      ensures Memory() == EnvStep(old(Memory()), e)
    {
      var k := e.key;
      var probe := BLANK.(ns := k.ns, name := k.name);
      match e {
        case Readiness(_, n) => if k in cluster { cluster := cluster[k := cluster[k].(ready := n)]; }
        case Reports(_, c) => if k in cluster { cluster := cluster[k := cluster[k].(condition := c)]; }
        case Retarget(_, t) =>
          var entry, found := deny.GetDeploymentInfoFromList(probe);
          if found {
            AsMapKeyed(deny.Contents(), k);
            deny.SetScalingItemOnList(entry, entry.failure, entry.failureMessage, t);
          }
        case OptOut(_, labels) =>
          if k in cluster && !OptedIn(labels) {
            cluster := cluster[k := cluster[k].(labels := labels)];
            var scaled := deny.IsBeingScaled(probe);
            if scaled { deny.SetScalingItemOnList(probe, true, OptedOutMessage, -1); }
          }
        case Deletion(_) =>
          cluster := cluster - {k};
          var listed := deny.IsInConcurrentList(probe);
          if listed { deny.RemoveFromList(probe); }
        case Foreign(_, obj, entry) =>
          cluster := SetOrDrop(cluster, k, obj);
          if entry.Some? { deny.UpdateOrAppend(entry.value); } else { deny.RemoveFromList(probe); }
      }
    }

    /** Lets the environment move until it is this scaler's turn; None when the moves run out first. */
    method Await() returns (turn: Option<Outcome>)
      requires InStep()
      modifies this`cluster, this`script, this`sc, this`made, deny, deny.backing
      ensures deny.Sound() && (deny.backing == old(deny.backing) || fresh(deny.backing))
      ensures sc == old(sc) && |script| <= |old(script)|
      ensures turn.None? ==> InStep()
      ensures turn.Some? ==> OnTurn(Memory(), Go(turn.value)) && |script| < |old(script)|
    {
      while script != []
        invariant InStep() && sc == old(sc) && |script| <= |old(script)|
        invariant deny.backing == old(deny.backing) || fresh(deny.backing)
        decreases |script|
      {
        var m := script[0];
        assert WellKeyed(m) && script == [m] + script[1..];
        script := script[1..];
        assert OnTurn(Memory(), m);
        if m.Go? { return Some(m.out); }
        ghost var before := Memory();
        Disturb(m.e);
        Record(before, m);
      }
      return None;
    }

    method GetRefreshedScalingItem(info: ScalingInfo, getOk: bool) returns (item: Option<ScalingInfo>)
      requires deny.Sound()
      modifies deny, deny.backing
      ensures deny.Sound() && (deny.backing == old(deny.backing) || fresh(deny.backing))
      ensures (Memory(), item) == Refresh(old(Memory()), info, getOk)
    {
      var listed, _ := deny.GetDeploymentInfoFromList(info);
      var k := KeyOf(listed);
      if listed.kind.Unknown? || !getOk || k !in cluster || cluster[k].kind != listed.kind { return None; }
      var itemToReturn := Convert(k, cluster[k]).(isBeingScaled := listed.isBeingScaled);
      deny.SetScalingItemOnList(itemToReturn, itemToReturn.failure, itemToReturn.failureMessage, listed.desired);
      var found, _ := deny.GetDeploymentInfoFromList(itemToReturn);
      return Some(found);
    }

    /** Records a failure on the list: the last thing before every error return but one. */
    method MarkFailed(item: ScalingInfo, message: Message, target: int) returns (r: Status)
      requires InStep() && sc.pc == Mark(item, message, target)
      modifies this`cluster, this`script, this`sc, this`made, deny, deny.backing
      ensures InStep() && (deny.backing == old(deny.backing) || fresh(deny.backing)) && |script| <= |old(script)|
      ensures r.Returned? ==> r == Returned(false) && sc == old(sc).(pc := Release(false))
    {
      hide InStep, OnTurn, Refresh, Play, Convert, ConcurrentSlice.Sound, ConcurrentSlice.Contents,
        ConcurrentSlice.Entries;
      var turn := Await();
      if turn.None? { return Suspended; }
      ghost var before := Memory();
      deny.SetScalingItemOnList(item, true, message, target);
      Record(before, Go(turn.value));
      return Returned(false);
    }

    /** One round of the wait. */
    method PollOnce(item: ScalingInfo, remembered: int, waitTarget: int) returns (r: PollResult)
      requires InStep() && sc.pc == Poll(item, remembered, waitTarget)
      modifies this`cluster, this`script, this`sc, this`made, deny, deny.backing
      ensures InStep() && (deny.backing == old(deny.backing) || fresh(deny.backing)) && |script| <= |old(script)|
      ensures r.TimedOut? ==> sc == Failing(old(sc), item, TimeoutMessage, item.desired)
      ensures r.Gone? ==> sc == old(sc).(pc := Release(false))
      ensures r.Seen? ==>
                |script| < |old(script)| &&
                sc == if r.now.condition.ProgressDeadlineExceeded? then Failing(old(sc), r.now, DeadlineMessage,
                    waitTarget)
                      else if r.now.ready == remembered || r.now.spec == r.now.ready then Decide(old(sc), r.now)
                      else old(sc).(pc := Poll(r.now, remembered, waitTarget))
    {
      hide InStep, OnTurn, Refresh, Play, Convert, ConcurrentSlice.Sound, ConcurrentSlice.Contents,
        ConcurrentSlice.Entries, Decide, Failing, ExecAttempt, ExecWrite;
      var turn := Await();
      if turn.None? { return NoTurn; }
      ghost var before := Memory();
      if turn.value.TimeoutFires? {
        Record(before, Go(turn.value));
        return TimedOut;
      }
      var refreshed := GetRefreshedScalingItem(item, !turn.value.GetFails?);
      if refreshed.None? {
        deny.RemoveFromList(BLANK);
        Record(before, Go(turn.value));
        return Gone;
      }
      Record(before, Go(turn.value));
      return Seen(refreshed.value);
    }

    /** Refreshes until the ready count is the spec the item had at the start of the wait, or the spec it has now. */
    method WaitForReady(deploymentItem: ScalingInfo) returns (r: Status, item: ScalingInfo)
      requires InStep() && sc.pc == Poll(deploymentItem, deploymentItem.spec, deploymentItem.desired)
      modifies this`cluster, this`script, this`sc, this`made, deny, deny.backing
      ensures InStep() && (deny.backing == old(deny.backing) || fresh(deny.backing)) && |script| <= |old(script)|
      ensures r == Returned(false) ==> sc == old(sc).(pc := Release(false))
      ensures r == Returned(true) ==>
                sc == Decide(old(sc), item) && |script| < |old(script)| &&
                (item.ready == deploymentItem.spec || item.ready == item.spec)
    {
      hide InStep, OnTurn, Refresh, Play, Convert, ConcurrentSlice.Sound, ConcurrentSlice.Contents,
        ConcurrentSlice.Entries, Decide, Exec, Next;
      item := deploymentItem;
      var stepReplicaCount, desiredReplicaCount := deploymentItem.spec, deploymentItem.desired;
      var stay := true;
      while stay
        invariant InStep() && (deny.backing == old(deny.backing) || fresh(deny.backing)) && |script| <= |old(script)|
        invariant stay ==> sc == old(sc).(pc := Poll(item, stepReplicaCount, desiredReplicaCount))
        invariant !stay ==> sc == Decide(old(sc), item) && |script| < |old(script)| &&
                            (item.ready == stepReplicaCount || item.ready == item.spec)
        decreases |script|, stay
      {
        var round := PollOnce(item, stepReplicaCount, desiredReplicaCount);
        match round {
          case NoTurn => return Suspended, item;
          case Gone => return Returned(false), BLANK;
          case TimedOut =>
            r := MarkFailed(item.(isBeingScaled := false), TimeoutMessage, item.desired);
            return r, item;
          case Seen(now) =>
            DecideAnywhere(old(sc), Poll(item, stepReplicaCount, desiredReplicaCount), now);
            item := now;
        }
        if item.ready == stepReplicaCount || item.spec == item.ready { stay := false; }
        if item.condition.ProgressDeadlineExceeded? {
          r := MarkFailed(item.(isBeingScaled := false), DeadlineMessage, desiredReplicaCount);
          return r, item;
        }
      }
      return Returned(true), item;
    }

    method UpdateScalingItem(item: ScalingInfo, replicas: int, outcome: Outcome) returns (r: UpdateResult)
      modifies this`cluster
      ensures var k := KeyOf(item);
              if outcome.UpdateConflicts? then r == Conflict && cluster == old(cluster)
              else if outcome.UpdateFails? || k !in old(cluster) || old(cluster)[k].kind != item.kind
              then r == Rejected && cluster == old(cluster)
              else r == Updated && cluster == old(cluster)[k := old(cluster)[k].(spec := replicas)]
    {
      if outcome.UpdateConflicts? { return Conflict; }
      var k := KeyOf(item);
      if outcome.UpdateFails? || k !in cluster || cluster[k].kind != item.kind { return Rejected; }
      cluster := cluster[k := cluster[k].(spec := replicas)];
      return Updated;
    }

    method RefreshForScaling(scalingItem: ScalingInfo, replicas: int, left: nat)
      returns (turned: bool, refreshed: Option<ScalingInfo>)
      requires InStep() && sc.pc == Attempt(scalingItem, replicas, left)
      modifies this`cluster, this`script, this`sc, this`made, deny, deny.backing
      ensures InStep() && (deny.backing == old(deny.backing) || fresh(deny.backing)) && |script| <= |old(script)|
      ensures turned ==>
                sc == if refreshed.None? || refreshed.value.failure || !OptedIn(refreshed.value.labels)
                      then Failing(old(sc), scalingItem, ScaleFailedMessage, old(sc).target)
                      else old(sc).(pc := Write(scalingItem, refreshed.value, replicas, left))
    {
      hide InStep, OnTurn, Refresh, Play, Convert, ConcurrentSlice.Sound, ConcurrentSlice.Contents,
        ConcurrentSlice.Entries, OptedIn, Failing, ExecPoll, ExecWrite;
      var turn := Await();
      if turn.None? { return false, None; }
      ghost var before := Memory();
      refreshed := GetRefreshedScalingItem(scalingItem, !turn.value.GetFails?);
      Record(before, Go(turn.value));
      return true, refreshed;
    }

    method UpdateForScaling(scalingItem: ScalingInfo, latest: ScalingInfo, replicas: int, left: nat)
      returns (r: Option<UpdateResult>)
      requires InStep() && sc.pc == Write(scalingItem, latest, replicas, left)
      modifies this`cluster, this`script, this`sc, this`made, deny, deny.backing
      ensures InStep() && (deny.backing == old(deny.backing) || fresh(deny.backing)) && |script| <= |old(script)|
      ensures r == Some(Updated) ==> sc == AfterScaling(old(sc).(specs := sc.specs))
      ensures r == Some(Conflict) && left > 1 ==> sc == old(sc).(pc := Attempt(scalingItem, replicas, left - 1))
      ensures (r == Some(Conflict) && left <= 1) || r == Some(Rejected) ==>
                sc == Failing(old(sc), scalingItem, ScaleFailedMessage, old(sc).target)
    {
      hide InStep, OnTurn, Refresh, Play, Convert, ConcurrentSlice.Sound, ConcurrentSlice.Contents,
        ConcurrentSlice.Entries, Failing, ExecPoll, ExecAttempt;
      var turn := Await();
      if turn.None? { return None; }
      ghost var before := Memory();
      var update := UpdateScalingItem(latest, replicas, turn.value);
      Record(before, Go(turn.value));
      return Some(update);
    }

    /** Writes the spec, trying again on a conflict. */
    method DoScaling(scalingItem: ScalingInfo, replicas: int, ghost at: Scaler) returns (r: Status)
      requires InStep() && sc == EnterScaling(at, scalingItem, replicas)
      modifies this`cluster, this`script, this`sc, this`made, deny, deny.backing
      ensures InStep() && (deny.backing == old(deny.backing) || fresh(deny.backing)) && |script| <= |old(script)|
      ensures r == Returned(true) ==> sc == AfterScaling(at.(specs := sc.specs))
      ensures r == Returned(false) ==> sc == Failing(at, scalingItem, ScaleFailedMessage, at.target)
    {
      hide InStep, OnTurn, Refresh, Play, Convert, ConcurrentSlice.Sound, ConcurrentSlice.Contents,
        ConcurrentSlice.Entries, Exec, Next, OptedIn;
      if AllowsAutoscaling(scalingItem.annotations) && replicas <= scalingItem.spec { return Returned(true); }
      var left := RETRIES;
      while true
        invariant 0 < left && InStep() && (deny.backing == old(deny.backing) || fresh(deny.backing)) &&
                  |script| <= |old(script)|
        invariant sc == at.(pc := Attempt(scalingItem, replicas, left))
        decreases left
      {
        var turned, refreshed := RefreshForScaling(scalingItem, replicas, left);
        if !turned { return Suspended; }
        if refreshed.None? || refreshed.value.failure || !OptedIn(refreshed.value.labels) { return Returned(false); }
        var update := UpdateForScaling(scalingItem, refreshed.value, replicas, left);
        if update.None? { return Suspended; }
        if update.value.Updated? { return Returned(true); }
        if update.value.Rejected? || left == 1 { return Returned(false); }
        left := left - 1;
      }
    }

    /** What StepScale and RapidScale do with an error of DoScaling: record it and give up. */
    method ScaleOrGiveUp(item: ScalingInfo, replicas: int, target: int, ghost at: Scaler) returns (r: Status)
      requires InStep() && sc == EnterScaling(at, item, replicas) && at.target == target
      modifies this`cluster, this`script, this`sc, this`made, deny, deny.backing
      ensures InStep() && (deny.backing == old(deny.backing) || fresh(deny.backing)) && |script| <= |old(script)|
      ensures r == Returned(true) ==> sc == AfterScaling(at.(specs := sc.specs))
      ensures r == Returned(false) ==> sc == at.(pc := Release(false))
    {
      hide InStep, OnTurn, Refresh, Play, Convert, ConcurrentSlice.Sound, ConcurrentSlice.Contents,
        ConcurrentSlice.Entries, EnterScaling, Exec, Next, AfterScaling;
      r := DoScaling(item, replicas, at);
      if r == Returned(false) { r := MarkFailed(item.(isBeingScaled := false), ScaleFailedMessage, target); }
    }

    /** The head of the loop: what the list has now, or the item itself when it has none. */
    method ReadList(outer: ScalingInfo) returns (r: Status, item: ScalingInfo)
      requires InStep() && sc.pc.Head? && sc.outer == outer
      modifies this`cluster, this`script, this`sc, this`made, deny, deny.backing
      ensures InStep() && (deny.backing == old(deny.backing) || fresh(deny.backing)) && |script| <= |old(script)|
      ensures r.Returned? ==>
                sc.mode == old(sc).mode && sc.item == old(sc).item && sc.step == old(sc).step &&
                    sc.initial == old(sc).initial &&
                sc.outer == item && sc.target == (if item.desired == -1 then sc.initial else item.desired) &&
                sc.pc == Poll(item, item.spec, item.desired)
    {
      hide InStep, OnTurn, Refresh, Play, Convert, ConcurrentSlice.Sound, ConcurrentSlice.Contents,
        ConcurrentSlice.Entries;
      var turn := Await();
      if turn.None? { return Suspended, outer; }
      ghost var before := Memory();
      var found: bool;
      item, found := deny.GetDeploymentInfoFromList(outer);
      Record(before, Go(turn.value));
      return Returned(true), item;
    }

    /** One pass of the loop of StepScale: `outer` is deploymentItem outside the loop body, the wait's result shadows it
        inside. */
    method StepPass(outer: ScalingInfo, stepCount: int, initialDesiredReplicaCount: int)
      returns (r: Status, deploymentItem: ScalingInfo, stepReplicaCount: int, stepCondition: bool)
      requires InStep() && sc.mode.Step? && sc.pc.Head? && sc.outer == outer
      requires sc.step == stepCount && sc.initial == initialDesiredReplicaCount
      modifies this`cluster, this`script, this`sc, this`made, deny, deny.backing
      ensures InStep() && (deny.backing == old(deny.backing) || fresh(deny.backing)) && |script| <= |old(script)|
      ensures r == Returned(false) ==> sc.pc == Release(false) && sc.item == old(sc).item
      ensures r == Returned(true) ==>
                sc.item == old(sc).item && sc.mode.Step? && sc.initial == old(sc).initial && |script| < |old(script)| &&
                if stepCondition then sc.pc.Head? && sc.outer == deploymentItem && sc.step == stepReplicaCount
                else sc.pc == Release(true)
    {
      hide InStep, OnTurn, Refresh, Play, Convert, ConcurrentSlice.Sound, ConcurrentSlice.Contents,
        ConcurrentSlice.Entries, EnterScaling, Exec, Next, Decide, NextStep, AfterScaling;
      stepReplicaCount, stepCondition := stepCount, true;
      r, deploymentItem := ReadList(outer);
      if r.Suspended? { return; }
      var desiredReplicaCount := deploymentItem.desired;
      ghost var head := sc;
      var ready: ScalingInfo;
      r, ready := WaitForReady(deploymentItem);
      if r != Returned(true) { return; }
      if desiredReplicaCount == -1 { desiredReplicaCount := initialDesiredReplicaCount; }
      var oldReplicaCount := ready.spec;
      stepReplicaCount := if oldReplicaCount < desiredReplicaCount then oldReplicaCount + 1
                          else if oldReplicaCount > desiredReplicaCount then oldReplicaCount - 1
                          else stepReplicaCount;
      StepDecided(head, ready, desiredReplicaCount);
      if ready.ready == ready.desired {
        stepCondition := false;
      } else {
        r := ScaleOrGiveUp(ready, stepReplicaCount, desiredReplicaCount, head.(step := stepReplicaCount));
        NextPass(head.(step := stepReplicaCount, specs := sc.specs));
      }
    }

    method StepScale(deploymentItem: ScalingInfo) returns (r: Status)
      requires InStep() && sc.mode.Step? && sc.pc.Head? && sc.outer == deploymentItem
      requires sc.step == deploymentItem.spec && sc.initial == deploymentItem.desired
      modifies this`cluster, this`script, this`sc, this`made, deny, deny.backing
      ensures InStep() && (deny.backing == old(deny.backing) || fresh(deny.backing)) && |script| <= |old(script)|
      ensures r.Returned? ==> sc.pc == Release(r.ok) && sc.item == old(sc).item
    {
      hide InStep, OnTurn, Refresh, Play, Convert, ConcurrentSlice.Sound, ConcurrentSlice.Contents,
        ConcurrentSlice.Entries, Exec, Next;
      var stepReplicaCount, initialDesiredReplicaCount := deploymentItem.spec, deploymentItem.desired;
      var item := deploymentItem;
      var stepCondition := true;
      while stepCondition
        invariant InStep() && (deny.backing == old(deny.backing) || fresh(deny.backing)) && |script| <= |old(script)|
        invariant sc.item == old(sc).item && sc.mode.Step? && sc.initial == initialDesiredReplicaCount
        invariant stepCondition ==> sc.pc.Head? && sc.outer == item && sc.step == stepReplicaCount
        invariant !stepCondition ==> sc.pc == Release(true)
        decreases |script|, stepCondition
      {
        r, item, stepReplicaCount, stepCondition := StepPass(item, stepReplicaCount, initialDesiredReplicaCount);
        if r != Returned(true) { return; }
      }
      return Returned(true);
    }

    method PutAgain(item: ScalingInfo, target: int) returns (r: Status)
      requires InStep() && sc.pc.RapidPut? && sc.item == item && sc.target == target
      modifies this`cluster, this`script, this`sc, this`made, deny, deny.backing
      ensures InStep() && (deny.backing == old(deny.backing) || fresh(deny.backing)) && |script| <= |old(script)|
      ensures r.Returned? ==> sc == old(sc).(pc := Poll(item, item.spec, item.desired))
    {
      hide InStep, OnTurn, Refresh, Play, Convert, ConcurrentSlice.Sound, ConcurrentSlice.Contents,
        ConcurrentSlice.Entries, ExecPoll, ExecAttempt, ExecWrite;
      var turn := Await();
      if turn.None? { return Suspended; }
      ghost var before := Memory();
      deny.SetScalingItemOnList(item, item.failure, item.failureMessage, target);
      Record(before, Go(turn.value));
      return Returned(true);
    }

    method RapidScale(deploymentItem: ScalingInfo) returns (r: Status)
      requires InStep() && sc.mode.Rapid? && sc.pc.RapidPut? && sc.item == deploymentItem
      requires sc.target == deploymentItem.desired && deploymentItem.isBeingScaled
      requires deploymentItem.spec != deploymentItem.desired || deploymentItem.failure
      modifies this`cluster, this`script, this`sc, this`made, deny, deny.backing
      ensures InStep() && (deny.backing == old(deny.backing) || fresh(deny.backing)) && |script| <= |old(script)|
      ensures r.Returned? ==> sc.pc == Release(r.ok) && sc.item == old(sc).item
    {
      hide InStep, OnTurn, Refresh, Play, Convert, ConcurrentSlice.Sound, ConcurrentSlice.Contents,
        ConcurrentSlice.Entries, EnterScaling, Exec, Next;
      var desiredReplicaCount := deploymentItem.desired;
      r := PutAgain(deploymentItem, desiredReplicaCount);
      if r.Suspended? { return; }
      ghost var head := sc;
      var item: ScalingInfo;
      r, item := WaitForReady(deploymentItem);
      if r != Returned(true) { return; }
      r := ScaleOrGiveUp(item, desiredReplicaCount, desiredReplicaCount, head);
    }

    method Leave(item: ScalingInfo, ok: bool) returns (r: Status)
      requires InStep() && sc.pc == Release(ok) && KeyOf(sc.item) == KeyOf(item)
      modifies this`cluster, this`script, this`sc, this`made, deny, deny.backing
      ensures InStep() && (deny.backing == old(deny.backing) || fresh(deny.backing)) && |script| <= |old(script)|
      ensures r.Returned? ==> r.ok == ok && sc.pc == Finished(ok) && KeyOf(item) !in deny.Entries()
    {
      hide InStep, OnTurn, Refresh, Play, Convert, ConcurrentSlice.Sound, ConcurrentSlice.Contents,
        ConcurrentSlice.Entries;
      var turn := Await();
      if turn.None? { return Suspended; }
      ghost var before := Memory();
      deny.RemoveFromList(item);
      Record(before, Go(turn.value));
      return Returned(ok);
    }

    /** The scaler goroutine. Its whole execution is the run of the machine from the item being put on the list over the
        moves consumed; when it returns, its key is off the list. Returning without an error, a rapid scaler has written
        the target it was given, whatever happened meanwhile, or allow-autoscaling held it back; a step scaler of a
        current item whose target nobody changed has reached it. In any case an autoscaled object has lost nothing. */
    method ScaleOrStepScale(deploymentItem: ScalingInfo) returns (r: Status)
      requires deny.Sound() && AllWellKeyed(script)
      modifies this, deny, deny.backing
      ensures deny.Sound()
      ensures deploymentItem.spec == deploymentItem.desired && !deploymentItem.failure ==>
                r == Returned(true) && Memory() == old(Memory()) && script == old(script)
      ensures deploymentItem.spec != deploymentItem.desired || deploymentItem.failure ==>
                var k := KeyOf(deploymentItem);
                made + script == old(script) &&
                    World(Memory(), sc) == Play(Started(old(Memory()), deploymentItem), made) &&
                (r.Returned? ==> sc.pc == Finished(r.ok) && k !in deny.Entries()) &&
                (r == Returned(true) && SteadyRun(old(Memory()), deploymentItem, made) && k in cluster ==>
                  cluster[k].spec == deploymentItem.desired) &&
                (r == Returned(true) && RapidScaling(deploymentItem) && Named(k) && OthersKeepOff(k, made) ==>
                  ReachedOrHeldBack(Memory(), k, deploymentItem.desired)) &&
                (Named(k) && OthersKeepOff(k, made) && k in old(cluster) && k in cluster &&
                 AllowsAutoscaling(old(cluster)[k].annotations) ==>
                  cluster[k].spec >= old(cluster)[k].spec)
    {
      if deploymentItem.spec == deploymentItem.desired && !deploymentItem.failure { return Returned(true); }
      ghost var memory := Memory();
      PutOnList(deploymentItem);
      r := Scale(deploymentItem.(isBeingScaled := true));
      FinishedOnTarget(memory, deploymentItem, made);
      RapidFinished(memory, deploymentItem, made);
      NotTakenDown(memory, deploymentItem, made);
    }

    method PutOnList(deploymentItem: ScalingInfo)
      requires deny.Sound() && AllWellKeyed(script)
      modifies this`start, this`plan, this`made, this`sc, deny, deny.backing
      ensures InStep() && (deny.backing == old(deny.backing) || fresh(deny.backing))
      ensures start == Started(old(Memory()), deploymentItem) && plan == old(script) && made == [] &&
              sc == Fresh(deploymentItem)
    {
      ghost var memory := Memory();
      var item := deploymentItem.(isBeingScaled := true);
      deny.SetScalingItemOnList(item, item.failure, item.failureMessage, item.desired);
      assert Marked(item, item.failure, item.failureMessage, item.desired) == item;
      start, plan, made := Started(memory, deploymentItem), script, [];
      sc := start.sc;
    }

    method Scale(item: ScalingInfo) returns (r: Status)
      requires InStep() && sc == Fresh(item) && item.isBeingScaled
      requires item.spec != item.desired || item.failure
      modifies this`cluster, this`script, this`sc, this`made, deny, deny.backing
      ensures InStep() && (deny.backing == old(deny.backing) || fresh(deny.backing)) && |script| <= |old(script)|
      ensures r.Returned? ==> sc.pc == Finished(r.ok) && KeyOf(item) !in deny.Entries()
    {
      hide InStep, OnTurn, Refresh, Play, Convert, ConcurrentSlice.Sound, ConcurrentSlice.Contents,
        ConcurrentSlice.Entries, Exec, Next;
      if RapidScaling(item) {
        r := RapidScale(item);
      } else {
        r := StepScale(item);
      }
      if r.Returned? { r := Leave(item, r.ok); }
    }
  }

  /** A run of a freshly read, step-scaled item whose target nobody changes; upwards if it is autoscaled. */
  ghost predicate SteadyRun(sh: Shared, item: ScalingInfo, ms: seq<Move>) {
    FreshStart(sh, item) && item.desired != -1 &&
    (KeyOf(item) in sh.cluster && AllowsAutoscaling(sh.cluster[KeyOf(item)].annotations) ==>
        item.spec <= item.desired) &&
    forall i :: 0 <= i < |ms| ==> KeepsTarget(ms[i], KeyOf(item), item.desired)
  }

  lemma {:induction false} FinishedOnTarget(sh: Shared, item: ScalingInfo, ms: seq<Move>)
    ensures var w, k := Play(Started(sh, item), ms), KeyOf(item);
            SteadyRun(sh, item, ms) && w.sc.pc == Finished(true) && k in w.sh.cluster ==>
                w.sh.cluster[k].spec == item.desired
  {
    hide Play, Started;
    if SteadyRun(sh, item, ms) { FixedTargetRun(sh, item, ms); }
  }

  lemma {:induction false} NotTakenDown(sh: Shared, item: ScalingInfo, ms: seq<Move>)
    ensures var w, k := Play(Started(sh, item), ms), KeyOf(item);
            Named(k) && OthersKeepOff(k, ms) && k in sh.cluster && k in w.sh.cluster &&
            AllowsAutoscaling(sh.cluster[k].annotations) ==>
              w.sh.cluster[k].spec >= sh.cluster[k].spec
  {
    hide Play, Started;
    var k := KeyOf(item);
    if Named(k) && OthersKeepOff(k, ms) && k in sh.cluster && AllowsAutoscaling(sh.cluster[k].annotations) {
      NeverTakenDown(sh, item, ms);
    }
  }

  /** The branches of StepScale after a good wait, and what they make of the machine. */
  lemma {:induction false} StepDecided(head: Scaler, ready: ScalingInfo, target: int)
    requires head.mode.Step? && head.target == target
    ensures var step := NextStep(head, ready.spec);
            step == (if ready.spec < target then ready.spec + 1
                     else if ready.spec > target then ready.spec - 1 else head.step) &&
            Decide(head, ready) == if ready.ready == ready.desired then head.(step := step, pc := Release(true))
                                   else EnterScaling(head.(step := step), ready, step)
  {
    hide EnterScaling;
  }

  lemma {:induction false} NextPass(sc: Scaler)
    requires sc.mode.Step?
    ensures AfterScaling(sc) == sc.(pc := Head)
  {
  }

  lemma {:induction false} RapidFinished(sh: Shared, item: ScalingInfo, ms: seq<Move>)
    ensures var w, k := Play(Started(sh, item), ms), KeyOf(item);
            w.sc.pc == Finished(true) && RapidScaling(item) && Named(k) && OthersKeepOff(k, ms) ==>
              ReachedOrHeldBack(w.sh, k, item.desired)
  {
    hide Play, Started, ReachedOrHeldBack, RapidScaling;
    if RapidScaling(item) && Named(KeyOf(item)) && OthersKeepOff(KeyOf(item), ms) { RapidRun(sh, item, ms); }
  }

  /** What another scaler or reconcile puts on the list under a key has that key. */
  predicate WellKeyed(m: Move) {
    m.Env? && m.e.Foreign? && m.e.entry.Some? ==> KeyOf(m.e.entry.value) == m.e.key
  }

  /** The decision after a wait does not depend on where the wait was. */
  lemma {:induction false} DecideAnywhere(sc: Scaler, pc: Pc, item: ScalingInfo)
    ensures Decide(sc.(pc := pc), item) == Decide(sc, item)
  {
  }

  predicate AllWellKeyed(ms: seq<Move>) {
    forall i :: 0 <= i < |ms| ==> WellKeyed(ms[i])
  }
}

# The scaling operator, modelled and proved

The operator watches opted-in Deployments, DeploymentConfigs and RedisClusters and moves each to the replica count that its
annotations give for the state it is in. Several goroutines do this at once: reconciles decide what is to be scaled, and a
scaler per item does it, one replica at a time (step) or in one go (rapid). They share the cluster and one list, the deny
list, through which a reconcile gives a running scaler a new target. This project models that code and proves what it keeps.

`dafny verify dfyconfig.toml` verifies everything.

## What is modelled

| file | models |
|---|---|
| `items.dfy` | the scaling item, the cluster object, the `Convert` functions as far as fields are copied |
| `deny_list.dfy`, `concurrent_slice.dfy` | the deny list: as a sequence, as the map it stands for, and as the slice over a backing array that every method changes in place |
| `scaler_machine.dfy` | a scaler goroutine as a state machine over (cluster, deny list, its own variables), and the environment it runs in: `Refresh` is `GetRefreshedScalingItem`, `Exec` one atomic step |
| `scaler_safety.dfy`, `scaler_progress.dfy`, `scaler_rapid.dfy`, `scaler_autoscaled.dfy`, `scaler_limits.dfy`, `scaler_endings.dfy` | what holds in every run of one scaler, step or rapid, where it stops holding, and how a scaler ends |
| `scaler_methods.dfy` | `StepScale`, `RapidScale`, `WaitForReady`, `DoScaling`, `ScaleOrStepScale` as the loops they are, proved to run the machine move for move |
| `system.dfy` | any number of scalers, reconciles and outside events, interleaved in any order |
| `bounds.dfy` | bounds on counts that hold in every interleaving |
| `interleaving.dfy`, `step_bounds.dfy` | one scaler among all the others: its run, and how far it still gets after a redirect |
| `effects.dfy` | what a reconcile does to list and scalers, and how a new target gets to a running scaler |
| `resource_lists.dfy`, `quotas.dfy` | resource arithmetic, the demand of a batch, the quota check |
| `quota_safety.dfy` | both together: an admitted batch in every interleaving |
| `search.dfy` | the lookup by name that state definitions and replica lists share |
| `states.dfy`, `targets.dfy` | state resolution and target determination |
| `grouping.dfy` | one group per namespace |
| `processes.dfy` | a reconcile at work among everybody else: before each of its own looks at the list others may do anything |
| `budget.dfy` | the concurrency budget, as a fold over the decisions |
| `judgement.dfy`, `decisions.dfy` | the decisions about namespaces, against a list others go on changing |
| `reconciler.dfy` | `PrepareForNamespaceReconcile`, `ReconcileNamespace`, `ReconcileScalingItem` on top of all of it |
| `listings.dfy`, `launch_safety.dfy` | from reading the items to the end of the scaling: the launched batches and their quotas |

**Grain.** One step is one method of the deny list, one refresh, one update of the cluster, or the timeout of a wait. Looking an
item up in the list and putting it there (`internal/reconciler/reconciler.go:104-120` with
`internal/resources/common.go:204-205`) is one step as well. Between two steps of a scaler anything else may happen: readiness
and conditions change, targets are redirected, objects are opted out or deleted, other scalers move; and the same between two
looks of a reconcile at the list (`Processes.Process.Elsewhere`). At a finer grain a redirect can be lost between lookup and write
inside a refresh, and two scalers can pass the list check together.

**What decides.** The clock, the API server and map iteration are nondeterministic: the outcomes of a step are a parameter, and
loops over maps take the keys in any order. Which texts are numbers (`strconv.Atoi`) is a function parameter. Quantities are
integers. Replica counts are integers too; the int32 subtraction of `ReplicaCalc` and the int32 conversion of annotation
values are written out with their wrap-around.

**Specification and method.** Where the code changes things step by step there is a method with the code's loops, and a
function or predicate it is proved against; the lemmas speak about the latter. `ScalerMethods.Operator` keeps, as ghost fields,
the run it is in, and every method is proved to extend it by the moves it consumed, so the lemmas about runs are about the
methods. `Interleaving.InterleavingIsARun` carries them on to the interleavings of many scalers. A reconcile (`Processes.Process`)
keeps the log of the system's run, its own events and those of the others, and every method says which events it added.

## What came out

Where a property does not hold of the code as it stands, there are lemmas that say exactly when it holds, or by how much it can
be missed, with runs that show it.

- The step variable of `StepScale` starts from the item it was handed, not from the cluster. If the item is stale a write can go
  the wrong way or farther than one replica; every write goes one replica towards the target if and only if the item was
  current when the scaler started (`OneStepIffFresh`). The bound on how far the ready count a wait ended on is from the spec can
  bear a little more: it holds in every run if and only if the item was at most one replica off (`LagIff`).
- The list remembers the spec from before the last write, so a wait can end one step early. With a target that stays put this
  costs one redundant write at most, and the bound of distance + 2 passes is reached (`PassBoundIsReached`). A redirect back to
  the previous count ends the loop one replica off the target, upwards or downwards (`RedirectCanMissTarget`). With any
  other target than the remembered count the spec is on the target at the exit, and it is never more than one off
  (`ExitOnTargetIff`).
- After a redirect a step scaler overshoots by one replica at most, upwards or downwards (`RedirectOvershoot`), and it can
  (`OvershootIsReached`). A redirect never reaches a rapid scaler, which reads its target once: it ends on the target it was
  started with (`RapidRun`).
- The quota check of a single item is about the target asked for, but a listed failing item is scaled to the list's target. The
  scaler aims at the target that was checked if and only if the item is not listed as failing with another one
  (`StartsOnCheckedTarget`). A restart from a failed entry keeps all counts within the bounds of an admitted batch if and only if
  the entry's counts are within them, which the blank entry an opt-out leaves need not be (`RestartIff`).
- A batch may contain items already being scaled, which its admission only redirects. Then it stays within the quota but for what
  those scalers can still reach beyond the batch's own targets: one replica by steps, the old target in one go
  (`ListedBatchOvershoot`).
- One scaler per item is kept by every step but two kinds: deleting a listed object, and reconciling an item the list shows in
  failure state (`OneToOneIff`). The second can really come between a scaler recording its failure and leaving the list
  (`TwoScalersCanMeet`). With failing and leaving as one step it cannot (`OneScalerPerItemCoarsely`). What holds of a single
  scaler holds in the system as long as no second one is started on its own key (`AloneIff`, `InterleavingIsARun`).
- A reconcile that had room for every namespace can ask to be triggered again for nothing, because each pass counts the entries
  of earlier rounds again. It asks if and only if some namespace was put off or such a recount happened (`RetriggerIff`,
  `TriggeredForNothing`).
- `ReplicaCalc` asks room for all replicas of an item that stays where it is; so the demand of a batch is the true growth if and
  only if no such item has replicas with a limit (`DemandCoversGrowth`).
- State resolution clears a failure the cluster has reported as soon as any state applies to the item (`ResolutionFacts`).
- Two annotations whose keys are cut to the same state name make the target depend on map iteration order; the target is
  determined if and only if no two annotations give the state different counts (`OrderIrrelevantIff`).
- Taking a key out of a list that has it twice can run past the end (`DuplicateKeyOverrun`). It stays in range if and only if it
  is not the case that the last entry has the key and an earlier one too, whenever the iterator reads its values (`OverrunIff`);
  unique keys, which every method keeps, rule that out.

Two statements of the documentation differ from the code, and the code is followed: failed items are said to stay on the list
(`docs/architecture/architecture.md:166`), but every return path of the scaler takes its key off
(`internal/resources/common.go:216-220`); and the rapid scaler is said not to wait for ready replicas
(`docs/architecture/architecture.md:197`), but it waits before it writes (`internal/resources/scaler.go:77`).

## Model

| member | source | states |
|---|---|---|
| `Concurrent.ConcurrentSlice.constructor` | pkg/utils/global/concurrrent.go:78-85 | A new list is empty and in order. |
| `Concurrent.ConcurrentSlice.UpdateOrAppend` | pkg/utils/global/concurrrent.go:87-103 | Entries with the item's key are replaced where they stand, or the item goes to the end; of the map the list stands for: the key now has the item, nothing else changes, keys stay unique. |
| `Concurrent.ConcurrentSlice.Update` | pkg/utils/global/concurrrent.go:135-143 | Exactly the entries with the item's key are replaced, in place; reports whether there were any. |
| `Concurrent.ConcurrentSlice.RemoveIndex` | pkg/utils/global/concurrrent.go:178-180 | The backing array after the in-place shift, stale last cell included; in range only below the length. |
| `Concurrent.ConcurrentSlice.RemoveFromList` | pkg/utils/global/concurrrent.go:125-133 | Although the iteration goes on over the old length of the shifted array and each next value may be read before or after the shift: the result is such a walk, of a list with unique keys or any other that does not overrun; with unique keys the entry with the key goes and the rest stays in order. |
| `Concurrent.SweptOut` | pkg/utils/global/concurrrent.go:125-133 | A match comes at most once, in range, and neither the shifted nor the stale cell visited next matches again. |
| `Concurrent.OverrunIff` | pkg/utils/global/concurrrent.go:125-180 | On any list and with any timing of the reads the walk stays in range if and only if it is not the case that the last entry has the key and an earlier one too. |
| `Concurrent.DuplicateKeyOverrun` | pkg/utils/global/concurrrent.go:125-180 | The smallest list where it does not: of two entries with one key, the stale cell visited next matches at an index past the new length. |
| `Concurrent.ConcurrentSlice.PurgeList` | pkg/utils/global/concurrrent.go:163-167 | As many removals of the first entry as the list had entries stay in range and leave nothing. |
| `Concurrent.ConcurrentSlice.Length` | pkg/utils/global/concurrrent.go:169-176 | The number of keys of the map the list stands for. |
| `Concurrent.ConcurrentSlice.IsInConcurrentList` | pkg/utils/global/concurrrent.go:182-190 | True if and only if the key is in the map. |
| `Concurrent.ConcurrentSlice.IsBeingScaled` | pkg/utils/global/concurrrent.go:192-200 | True if and only if the map has an entry for the key that is marked as being scaled. |
| `Concurrent.ConcurrentSlice.SetScalingItemOnList` | pkg/utils/global/concurrrent.go:212-218 | The key now has the item with the failure, message and target given; nothing else changes. |
| `Concurrent.ConcurrentSlice.GetDeploymentInfoFromList` | pkg/utils/global/concurrrent.go:225-240 | The map's entry for the key, or the item itself and not found; a key with an empty part counts as not found. |
| `Concurrent.ConcurrentSlice.IsDeploymentInFailureState` | pkg/utils/global/concurrrent.go:242-248 | True if and only if the entry is found and failing. |
| `DenyList.WithoutAt` | pkg/utils/global/concurrrent.go:125-133 | Removing the key of entry i from a list with unique keys removes that entry and keeps the order of the others. |
| `DenyList.StepRefines` | pkg/utils/global/concurrrent.go:87-218 | Each list operation keeps keys unique and does to the list what the map operation does to the map. |
| `DenyList.ListRefinesMap` | pkg/utils/global/concurrrent.go:87-218 | The same for every serialised sequence of operations: same keys, same entries, same size. |
| `ScalerMachine.RefreshFacts` | internal/resources/common.go:254-293 | A refresh succeeds exactly when the object can be read as the kind listed; it then records the cluster's values under the key with the target and mark the list had, and otherwise changes nothing. |
| `ScalerMachine.RefreshReads` | internal/resources/common.go:254-293 | After a refresh the list has everything the cluster says of the object, and that it is stuck if and only if it is reported as `ProgressDeadlineExceeded` and no RedisCluster; target and mark stay. |
| `ScalerMethods.Operator.GetRefreshedScalingItem` | internal/resources/common.go:254-293 | The refresh by lookup, read, write and lookup on the real list is the machine's refresh of the map. |
| `ScalerMethods.Operator.PollOnce` | internal/resources/scaler.go:109-146 | One round of the wait, its timeout and failed refresh included, is one step of the machine. |
| `ScalerMethods.Operator.WaitForReady` | internal/resources/scaler.go:98-149 | A wait that ends well ends on a ready count equal to the spec at its start or to the spec now; every other return has recorded the failure or found the object gone. |
| `ScalerMethods.Operator.UpdateScalingItem` | internal/resources/common.go:364-401 | Writes the spec of the object and nothing else, or nothing. |
| `ScalerMethods.Operator.DoScaling` | internal/resources/common.go:65-108 | Writes at most once, after up to five attempts, or skips a step down of an autoscaled object; fails without a write otherwise. |
| `ScalerMethods.Operator.StepPass` | internal/resources/scaler.go:24-61 | One pass: read the list, wait, then leave on the target or write one replica nearer to it, as the machine does from head to head. |
| `ScalerMethods.Operator.StepScale` | internal/resources/scaler.go:14-63 | The loop is a run of the machine; it returns with its key about to be released, whatever the path. |
| `ScalerMethods.Operator.RapidScale` | internal/resources/scaler.go:65-96 | The same for the rapid scaler; what its runs achieve and never do is `RapidRun`, `RapidHeldBack` and `NeverTakenDown`. |
| `ScalerMethods.Operator.ScaleOrStepScale` | internal/resources/common.go:189-232 | The whole goroutine is the machine's run over the moves consumed; when it returns its key is off the list. Returning without an error, a step scaler of a current item whose target nobody changed has the object on the target; a rapid scaler has it on the target it was given whatever happened, or allow-autoscaling held it back. An autoscaled object never ends with fewer replicas than it had. Nothing happens to an item already there. |
| `ScalerMethods.Operator.Disturb` | internal/validations/prefilter.go:47-125 | What the environment does to memory, opt-outs and deletions through the list's own methods, is the machine's environment move. |
| `ScalerSafety.StepFrame` | internal/resources/common.go:203-231 | A scaler's step leaves the object and entry of every other key as they were, although a failed refresh removes the key of a zero item. |
| `ScalerSafety.SpecStaysWithin` | internal/resources/scaler.go:14-96 | Step and rapid: if start and all targets asked for lie between two numbers, so does the spec in every reachable state. |
| `ScalerSafety.StepsByOne` | internal/resources/scaler.go:36-52 | Under any redirects, failures and opt-outs, from a current item: the spec stays between the extremes of the start and the targets read, and every write moves it at most one replica, towards the target read last. |
| `ScalerProgress.BoundedLag` | internal/resources/scaler.go:24-61 | From a current item, under any redirects, failures, opt-outs and deletions: whenever a write is decided the ready count that ended the wait is the current spec or the one before the last write, so at most one off it and at most two off the spec about to be written. |
| `ScalerProgress.ExitOnTargetIff` | internal/resources/scaler.go:46-48 | In every run from a current item: the loop is left only with the ready count on the list's target and the spec at most one off it; and the spec is on it if and only if, before the exit, the list's target was not the remembered count or the remembered count was the spec. |
| `ScalerProgress.FixedTargetRun` | internal/resources/scaler.go:24-61 | From a current item, with a target that stays put, the object opted out or deleted on the way or not: the distinct specs are start, start±1, and so on up to the current one, at most distance + 2 passes begin, and a good exit has spec = ready = target. |
| `ScalerLimits.LagIff` | internal/resources/scaler.go:17-48 | Of a healthy object: the bounded lag holds in every run if and only if the item handed over was at most one replica off the cluster. |
| `ScalerLimits.ReleasedAndFramed` | internal/resources/common.go:203-231 | Over the whole of any run: once the scaler has ended, by whatever path, its key is off the list and stays off; and at every other named key, list and cluster are at all times what the environment's moves alone would have left there. |
| `ScalerLimits.RedirectSurvives` | internal/resources/common.go:289-291 | While the object is neither opted out nor deleted, however many refreshes follow a redirect: the list keeps the new target until the next one, and the next pass of a step scaler still in its loop reads it. |
| `ScalerLimits.PassAims` | internal/resources/scaler.go:25-38 | In every run: a pass aims at the target the list has for the item or, when that is undetermined, at the one the scaler was started with. |
| `ScalerLimits.RedirectOvershoot` | internal/resources/scaler.go:36-52 | A step scaler redirected to t, upwards or downwards, while nobody asks for anything farther than t: its object never gets beyond t, or one replica beyond what it has at the redirect. |
| `ScalerLimits.OvershootIsReached` | internal/resources/scaler.go:36-52 | From any current item off its target, above or below, there is a run in which a redirect back comes while a step is due, and the object still goes one replica beyond it. |
| `ScalerRapid.RapidRun` | internal/resources/scaler.go:65-96 | A rapid scaler that ends well has the object on the target it was started with, whatever redirects, opt-outs and failures came, or allow-autoscaling kept it from going down. |
| `ScalerAutoscaled.NeverTakenDown` | internal/resources/common.go:65-76 | In every run, rapid or step, from any item: an object annotated `scaler/allow-autoscaling` "true" never has fewer replicas than when the scaler started. |
| `ScalerAutoscaled.RapidHeldBack` | internal/resources/common.go:65-76 | A rapid scaler whose target is not above what such an object has writes nothing at all. |
| `ScalerLimits.OptOutStopsWrites` | internal/resources/common.go:84-101 | Once the opt-in label is gone the spec never changes again, but for an update already under way. |
| `ScalerEndings.OnlyHealthyIsWritten` | internal/resources/common.go:84-101 | Before a write there is a refresh that has found the object opted in and not stuck. |
| `ScalerEndings.WaitGivesUp` | internal/resources/scaler.go:110-141 | A wait that times out, or finds the object reported as `ProgressDeadlineExceeded`, has the failure, its message and its target on the list before the key is off it, whatever happens in between. |
| `ScalerEndings.ScalingGivesUp` | internal/resources/scaler.go:50-60 | The same of an object that cannot be read, is stuck or not opted in when it is to be written, of an update that fails, and of the last conflict. |
| `ScalerEndings.FiveTries` | internal/resources/common.go:78-108 | A step that is due is still written after up to four conflicts in a row; the fifth ends it without a write. |
| `ScalerEndings.LeavesSoon` | internal/validations/prefilter.go:47-125 | Once its object is deleted, or opted out while listed as being scaled, a scaler is gone after five more steps of its own at most, whatever it was doing and whatever happens; a step scaler not with success, unless it had reached its target before. |
| `ScalerLimits.OneStepIffFresh` | internal/resources/scaler.go:17-48 | Of a healthy object: every write of every run goes one replica towards the target if and only if the item was current at the start. |
| `ScalerLimits.RedirectCanMissTarget` | internal/resources/scaler.go:47-48 | From any current item off its target, above or below, there is a run that ends one replica off its target. |
| `ScalerLimits.PassBoundIsReached` | internal/resources/scaler.go:40-52 | From any spec to the next one there is a run that takes three passes: the bound on passes is tight. |
| `System.StepOnList` | internal/resources/scaler.go:14-149 | A step of a scaler changes its own entry at most, and removes it exactly when it ends the scaler. |
| `System.OneToOneIff` | internal/reconciler/reconciler.go:104-121 | From one scaler per listed item, a step keeps it so if and only if it neither deletes a listed object nor reconciles an item listed as failing. |
| `System.OneScalerPerItem` | internal/reconciler/reconciler.go:104-121 | In every interleaving without such a step, scalers at work and keys on the list correspond one to one in every state. |
| `System.OneScalerPerItemCoarsely` | internal/reconciler/reconciler.go:175-196 | With recording a failure and leaving as one step, and no deletions and opt-outs, every run keeps the correspondence and nobody sees a failing entry. |
| `System.FailureShows` | internal/resources/scaler.go:110-119 | A timeout shows on the list before the scaler has left it. |
| `System.TwoScalersCanMeet` | internal/reconciler/reconciler.go:176-196 | Reconciling the item at that moment starts a second scaler beside the first. |
| `System.StartsOnCheckedTarget` | internal/reconciler/reconciler.go:169-196 | The scaler that reconciling a single item starts aims at the target the quota check was about if and only if the item is not listed as failing with another target. |
| `Effects.OnItemOfNamespace` | internal/reconciler/reconciler.go:98-121 | Passed over where it should be or without a target; otherwise a listed item has its new target on the list, nothing else having changed, and on any other a scaler begins, rapid or step by kind and annotation, towards the item's target. |
| `Effects.OnSingleItem` | internal/reconciler/reconciler.go:160-196 | The same for a single item, but that a listed one in failure state is scaled as the list has it. |
| `Effects.NewTargetIsRead` | internal/reconciler/reconciler.go:104-117 | After either reconcile of an item whose step scaler is at work: however many refreshes follow, while nobody changes the target again, opts the object out or deletes it, the scaler's next pass reads the item's target. |
| `Interleaving.AloneIff` | internal/reconciler/reconciler.go:91-196 | A scaler stays alone on its key if and only if its item is not reconciled, off its target, while it is unlisted or, by ReconcileScalingItem, listed as failing. |
| `Interleaving.InterleavingIsARun` | internal/resources/common.go:189-232 | What a scaler alone on its key goes through, in any interleaving in which no second one is started there, is a run of that scaler alone in an environment that touches its key by redirects, opt-outs, deletion, readiness and conditions only. Restarts and deletions at other keys, and second scalers there, are no matter. |
| `Interleaving.StepsByOneAmongOthers` | internal/resources/scaler.go:36-52 | One replica at a time, between the start and the targets read, in every such interleaving with any number of scalers and reconciles. |
| `StepBounds.KeptUpToRun` | internal/resources/scaler.go:36-52 | Among any number of others: an object held to a bound stays within it, through the run of the step scaler at work on it and of those that come after. |
| `StepBounds.RedirectedIsHeld` | internal/resources/common.go:557-571 | A step scaler at work, redirected to t, is held to t or one replica on from the count now, whatever target it was started with. |
| `ResourceLists.Add` | pkg/utils/math/math.go:35-52 | The sum key by key, a missing entry counting as zero. |
| `ResourceLists.Subtract` | pkg/utils/math/math.go:8-25 | The difference key by key, a missing entry counting as zero, so a key of the second list alone is negative. |
| `ResourceLists.Mul` | pkg/utils/math/math.go:27-33 | Repeated addition multiplies; no entries at all when the factor is not positive. |
| `ResourceLists.IsNegative` | pkg/utils/math/math.go:67-76 | Exactly the negative keys. |
| `ResourceLists.IsZero` | pkg/utils/math/math.go:78-86 | True if and only if every entry is zero. |
| `ResourceLists.LimitsNeededList` | internal/resources/common.go:239-246 | Computes the demand of a batch. |
| `ResourceLists.DemandIsTheSum` | internal/resources/common.go:239-246 | The demand is, per resource, the sum over the items of max(0, `ReplicaCalc`) times limit. |
| `ResourceLists.NoOverflow` | pkg/utils/math/math.go:88-97 | The subtraction of two non-negative int32 counts does not wrap around. |
| `ResourceLists.DemandCoversGrowth` | internal/resources/common.go:239-246 | The demand is never below the true growth, and equal to it if and only if no item that stays where it is has replicas with a limit on the resource. |
| `Quotas.SanitizeRQ` | internal/quotas/quotas.go:114-142 | In place, all keys but the four of CPU and memory go; their values stay. |
| `Quotas.TranslateResourcesToQuotaResources` | pkg/utils/math/math.go:54-65 | Looked up under the name quotas use, CPU and memory have the quantity they had, and are there if and only if they were; nothing else is there. |
| `Quotas.CheckOne` | internal/quotas/quotas.go:70-93 | One quota: it lets the need through if and only if sanitizing empties it or no key of hard, used or need is overdrawn. |
| `Quotas.FitsIff` | internal/quotas/quotas.go:70-142 | A quota lets a need through if and only if it has none of limits.cpu, limits.memory, requests.cpu and requests.memory, or used is within hard for all four with the CPU and memory needed added to the limits. |
| `Quotas.IsAllowed` | internal/quotas/quotas.go:60-96 | True if and only if every quota fits; the quotas looked at, up to the first that does not, are left sanitized. |
| `Quotas.ResourceQuotaCheck` | internal/quotas/quotas.go:22-57 | What is let through: no quotas, a need with a negative part, a zero need, or one that fits; an error if and only if the quotas cannot be listed, and then nothing is let through. |
| `Quotas.RefusedIff` | internal/quotas/quotas.go:22-57 | With quotas listed, refused is exactly a need nowhere negative and somewhere positive for which some quota has no room. |
| `Bounds.HulledRun` | internal/resources/scaler.go:14-149 | In every interleaving of any number of scalers, reconciles and outside events that ask for counts within given bounds, every object, list entry and scaler at work stays within them, step and rapid alike. |
| `Bounds.RestartIff` | internal/reconciler/reconciler.go:176-196 | Restarting a failed item from its entry keeps everything within the bounds if and only if both counts of the entry are within them. |
| `QuotaSafety.AdmittedBatchFitsQuota` | internal/quotas/quotas.go:70-93 | A batch admitted while none of its items is listed or has a scaler at work, scaled before or not: in every state of every interleaving in which nobody asks for more than was admitted, restarts, failures, opt-outs and deletions included, for every quota not emptied by sanitizing and each of limits.cpu and limits.memory, used at admission plus what the batch has grown by is at most hard. |
| `QuotaSafety.AdmittedBatchIsSafe` | internal/quotas/quotas.go:22-57 | The same for the whole check with its shortcuts: the batch fits, or has not grown of that resource. |
| `QuotaSafety.ListedBatchOvershoot` | internal/resources/common.go:483-577 | A batch with items already being scaled: used at admission plus growth stays at or below hard plus the limits of what can still be reached beyond the batch's own targets, in every interleaving in which nobody asks for more: one replica on from the count now where a step scaler is at work alone, what scaler and entry hold where it is a rapid one. |
| `States.PriorityPicksTheTop` | internal/states/scaling_states.go:29-42 | The choice is one of the two that neither outranks, the second on a tie, and does not depend on how three are paired. |
| `Search.FirstIs` | internal/states/scaling_states.go:46-54 | A lookup by name yields an element of that name with none of the name before it, and nothing if and only if there is none. |
| `States.FindState` | internal/states/scaling_states.go:46-54 | The first definition of the name is written through; without one the variable is left as it was. |
| `States.DefinedIff` | internal/states/scaling_states.go:46-54 | A definition found is the first of its name; none is found if and only if there is none. |
| `States.FindScalingClassOnClusterScalingState` | internal/states/scaling_states.go:300-317 | The first cluster state of the class decides, a missing definition being an error of its own. |
| `States.LookupFindsDefinition` | internal/states/scaling_states.go:300-317 | The first cluster state of the class decides, one without a class counting as "default": a state is found if and only if it is the definition of that one's state, and the message otherwise has that one's state, or the class if there is none. |
| `States.GetAppliedClass` | internal/states/scaling_states.go:285-298 | Sets state and class of the item, or marks it as failing with the message, leaving the rest. |
| `States.GetAppliedStateAndClassOnItem` | internal/states/scaling_states.go:238-249 | Resolves one item. |
| `States.GetAppliedStatesOnItems` | internal/states/scaling_states.go:229-236 | Resolves every item of the slice in place. |
| `States.ResolutionFacts` | internal/states/scaling_states.go:238-249 | Afterwards an item is failing if and only if it has no state and was failing or has a class that cannot be looked up, and the message says which; its state is the namespace's or the class's, and the other does not outrank it; an item without the class label is of the class "default"; nothing else changes. |
| `Targets.StateReplicas.Add` | internal/state_replicas/state_replicas.go:36-38 | Appends. |
| `Targets.StateReplicas.GetState` | internal/state_replicas/state_replicas.go:44-51 | The first replica of the name, or none if there is none. |
| `Targets.FilterByKeyPrefix` | pkg/utils/annotations/annotations.go:9-17 | Exactly the annotations whose keys have the prefix. |
| `Targets.NewStateReplicasFromAnnotations` | internal/state_replicas/state_replicas.go:53-68 | Fails if and only if some count is not a number; otherwise lists one replica per state key, in the order the map yields them, counts as int32. |
| `Targets.KeyOfState` | internal/state_replicas/state_replicas.go:53-68 | The annotation "scaler/state-" + name + "-replicas" sets the count of exactly the state of that name, as int32. |
| `Targets.PossibleIff` | internal/state_replicas/state_replicas.go:53-68 | Which counts can come out for a state, over all orders: exactly those some annotation sets, when all parse. |
| `Targets.OrderIrrelevantIff` | internal/state_replicas/state_replicas.go:53-68 | The outcome is the same in every order if and only if no two annotations set the state to different counts, or some count does not parse. |
| `Targets.WellFormedIsUnique` | internal/state_replicas/state_replicas.go:57 | Keys that end in "-replicas" make it so. |
| `Targets.DetermineDesiredReplicas` | internal/resources/common.go:140-186 | In place: an item with a count gets it as target, or its own spec when it is failing, any other is left; handed on are exactly the items with a count, not failing, not already there. |
| `Targets.TargetsSet` | internal/resources/common.go:140-186 | An item whose counts all parse and of which one is for its state has it as target, or its own spec when it is failing; any other is unchanged. |
| `Targets.HandedOn` | internal/resources/common.go:172-183 | Item i is handed on, in order and with its count as target, if and only if it has a count, is not failing, and its spec or target so far is another number. |
| `Targets.SelectionIsASubsequence` | internal/resources/common.go:140-186 | The items handed on are an order-preserving and complete selection. |
| `Targets.TargetsComeFromAnnotations` | internal/resources/common.go:140-186 | After state resolution and target determination every item handed on is not failing and has a target that one of its annotations sets for its state. |
| `Targets.TargetsAreDetermined` | internal/resources/common.go:140-186 | With well-formed keys the targets and the selection do not depend on any iteration order. |
| `Grouping.GroupRuns` | internal/resources/common.go:622-640 | The run-based loop on any list at all: a group for each namespace, holding its last run. |
| `Grouping.PartitionIff` | internal/resources/common.go:622-640 | The groups hold all items of their namespaces if and only if no namespace is interrupted. |
| `Grouping.GroupScalingItemByNamespace` | internal/resources/common.go:614-641 | After the sort: a group for exactly the namespaces present, none empty, each with exactly the multiset of its items. |
| `Budget.WholePass` | internal/resources/common.go:593-603 | A pass in any order leaves min(chosen, max(0, budget)) of the chosen entries and counts each of them once. |
| `Budget.BudgetHolds` | internal/resources/common.go:451-604 | After every namespace, in every order: at most max(0, limit − being scaled) entries are to be scaled, only such as wanted to; if any was put off it is exactly that many; the counter is the number that wanted plus the recounts. |
| `Budget.WantedIff` | internal/resources/common.go:592-603 | The namespaces that want scaling are those judged to. |
| `Budget.BusyIsCounted` | internal/resources/common.go:578-580 | What counts against the budget is the number of namespaces judged busy. |
| `Budget.CountIsOrderFree` | internal/resources/common.go:592-603 | How many are to be scaled does not depend on the order of any pass. |
| `Budget.RetriggerIff` | internal/reconciler/reconciler.go:70-86 | What is left of the counter after the launches is positive if and only if a namespace was put off or a pass recounted one; no namespace put off is forgotten. |
| `Budget.TriggeredForNothing` | internal/reconciler/reconciler.go:70-86 | Two namespaces, both launched, and the counter still positive. |
| `Judgement.RedirectItem` | internal/resources/common.go:557-571 | After others have had their turn: an item being scaled to another target, by the list at that moment, gets the new one; any other is left. |
| `Judgement.JudgeNamespace` | internal/resources/common.go:553-580 | A namespace wants scaling if and only if some item off its target was not redirected when it was looked up; it is busy if and only if some item was being scaled when it was asked for; the judgement's own events are exactly the redirects, while others use the list in between. |
| `Judgement.JudgesMeans` | internal/resources/common.go:553-580 | Wanted: some item was off its target and, when looked up, not listed as being scaled to another one. Busy: some item was listed as being scaled when asked for. |
| `Judgement.QuietRun` | internal/resources/common.go:555-577 | With nobody else about, its redirects leave the list as redirecting one item after the other does. |
| `Judgement.WantsWithOwnKeys` | internal/resources/common.go:553-576 | With keys of their own the items do not get in each other's way: wanted is what is off its target and not being scaled to another one. |
| `Judgement.IsAnyBeingScaled` | pkg/utils/global/concurrrent.go:202-210 | True if and only if some item's entry is being scaled. |
| `Judgement.RedirectsAreExact` | internal/resources/common.go:555-577 | Of items with keys of their own each redirected one gets its own target and no other entry changes. |
| `Judgement.RedirectIsRetarget` | internal/resources/common.go:561 | A redirect is the environment move the results about scalers allow for. |
| `Decisions.DecideNamespace` | internal/resources/common.go:452-590 | The decision, entry and redirects of one namespace, error and dry-run branches included; a namespace that is not judged leaves the list alone. |
| `Decisions.DecisionMeans` | internal/resources/common.go:452-590 | Which decision a namespace gets, told for each by its state, the items to scale, the quotas and the dry run. |
| `Decisions.BudgetPass` | internal/resources/common.go:593-603 | The inner loop is a pass in some order, and changes nothing of the entries but the flag. |
| `Decisions.MakeNamespacesScaleDecisions` | internal/resources/common.go:432-611 | One round per namespace in any order, with others using the list in between; each decision is the one its items, quotas and what was seen of the list deserve, every view seen at some moment since the start; the own events are exactly the redirects of those judgements; the result is a run of the budget loop and keeps to the limit of the environment variable, or 1 without one; an entry to be scaled has passed its quota check. |
| `Decisions.AllOnlyRedirects` | internal/resources/common.go:432-611 | Whatever was seen, the decisions do nothing to the list but redirect. |
| `Decisions.ResultInBudget` | internal/resources/common.go:592-610 | The budget, its exhaustion and the counter in terms of the result. |
| `Decisions.LimitKept` | internal/resources/common.go:439-443 | With the environment variable 0 or unset at most 1, otherwise at most its value, less the namespaces being scaled, are to be scaled; and exactly that many, if positive, when one that wanted was put off. |
| `Reconcilers.Start` | internal/resources/common.go:189-214 | Starting a scaler up to its item being on the list is the system's launch. |
| `Reconcilers.ReconcileOne` | internal/reconciler/reconciler.go:98-121 | After others have had their turn, one item of a namespace is one reconcile event of the system; if it is listed and off its target, the list has its new target afterwards and is otherwise as it was at that moment. |
| `Reconcilers.ReconcileNamespace` | internal/reconciler/reconciler.go:91-124 | The reconcile's own events are those of its items, in order, with anything from others in between. |
| `Reconcilers.ReconcileScalingItem` | internal/reconciler/reconciler.go:126-207 | Which outcome it has, told for each: what could not be read, no item to scale or one already there, no target, unreadable quotas, refused, or reached. Every early return leaves list and scalers alone; an item that gets through makes one reconcile event: listed and not failing, it has its new target on the list; the scaler it starts otherwise aims at the target checked unless the item is listed as failing with another one. |
| `Reconcilers.LaunchAll` | internal/reconciler/reconciler.go:70-83 | Exactly the chosen namespaces are launched, each once, none in a dry run, whatever others do in between; the own events are those of their items, and the counter drops by their number. |
| `Reconcilers.PrepareForNamespaceReconcile` | internal/reconciler/reconciler.go:36-89 | The three early returns; otherwise groups that partition the listing, decisions and launches as above, own events that are the redirects of the decisions and then the launches, anything from others in between, a report of each namespace with its applied state, whether it is chosen and whether a dry run found its quotas exceeded, the limit on how many are chosen, and a retrigger if and only if the run is live and a namespace was put off or recounted. |
| `LaunchSafety.LaunchedIsAdmitted` | internal/resources/common.go:483-590 | The items of every namespace launched have passed the quota check of that namespace. |
| `Listings.KeepsMatching` | internal/reconciler/reconciler.go:104-121 | What of a listing describes the cluster and is not being scaled stays so through every event but a reconcile of the items themselves. |
| `LaunchSafety.MatchesOnceDecided` | internal/reconciler/reconciler.go:45-65 | For any of its items: if the listing has them once and as the cluster does, with none listed or being scaled, that is still so when the decisions have been taken, if no other reconcile takes these items up meanwhile. |
| `LaunchSafety.BatchIsJustAdmitted` | internal/resources/common.go:140-186 | A launched batch whose items the listing matches has unique keys, counts its annotations set, and none of its items listed or being scaled: it is just admitted. The rest of the listing may be in the middle of being scaled. |
| `LaunchSafety.LaunchedBatchIsSafe` | internal/reconciler/reconciler.go:65-83 | From decision to run: a launched batch whose own items matched when they were decided on, whatever other items and namespaces are being scaled, stays within each quota, or has not grown of the resource, at every later moment of the reconcile and of any run that follows, its own launches included, if others ask for no more of it than was admitted. |

## Left out

- Clients, listing, getters, caches and conflict details: the cluster is a map from key to object, read and written in steps; a conflict is a refresh without a write.
- Sleeps, deadlines and backoff: a wait ends when its outcome says so; `ProgressDeadline` and `SetProgressDeadline` with it. That every wait ends is assumed where a run is said to end.
- Termination under `scaler/allow-autoscaling` with a target below the spec: the code then never writes and the loop need not end.
- Events, log lines, dry-run tables, the wording of messages, the CPU and memory texts the quota check returns.
- `resource.Quantity` parsing and formatting.
- Goroutines, channels and locks inside the list's iterator: list methods are atomic. Calling list methods while an iterator holds the lock, as the cron loop does (internal/reconciler/reconciler_cron.go:17-63), is not modelled, nor the removal at the end of that loop.
- `GetReconcileList`: creating it replaces the global deny list (pkg/utils/global/concurrrent.go:83); one list is assumed.
- The event filters beyond what opt-out and deletion do to the list; `GetAppliedStateOld` and `fetchClusterState`; reading the namespace state, which is a parameter that may fail.
- `GetRefreshedScalingItemSetError`, the function `StateReplicas` (internal/resources/common.go:116) and `Abs`: not used by the code modelled.
- `sort.Slice`: its body is not part of the repository; an insertion sort stands in, and only sortedness and the multiset are used.
- Decisions.MakeNamespacesScaleDecisions: each group is copied before it is resolved, so the in-place change of the grouped slices is not visible to its caller; cluster, states and quotas are read once, as parameters.
- Reconcilers.PrepareForNamespaceReconcile: the text of the dry-run tables is left out of its report, as are the fields nothing fills in (`Error`, `RetriggerMe`, `ReconcileSuccess`, `ReconcileFailure`).
- Reconcilers.Start: the scaler it starts is a state of the machine that goes on in the system; running it is `ScalerMethods.Operator`. A single item's reconcile runs its scaler itself; here others run it.
- Processes.Process: which events others have is a parameter, given in advance; when they happen is not.
- ScalerProgress.FixedTargetRun: an autoscaled object only upwards; below, the code holds every step back.
- QuotaSafety.AdmittedBatchFitsQuota: targets above the admitted ones, which another reconcile may set after a check of its own, are excluded; two admissions against the same used values are not added up.
- QuotaSafety.ListedBatchOvershoot: where a step scaler is at work, no second one is started beside it and its target is not made undetermined; that a second one can be started is `System.TwoScalersCanMeet`.
- Interleaving.InterleavingIsARun: says nothing of a scaler once a second one is started on its key.
- LaunchSafety.LaunchedBatchIsSafe: the listing has the batch's own items as the cluster does when they are decided on, with none of them listed or being scaled, and non-negative counts and limits in their namespace; batches with items already listed are `QuotaSafety.ListedBatchOvershoot`.
- ScalerEndings.LeavesSoon: not for a rapid scaler still about to put its item on the list again, which overwrites what an opt-out left there; that it writes nothing all the same is `ScalerLimits.OptOutStopsWrites`.
- ScalerMethods.Operator.StepScale: says nothing of a run that is cut off when the moves given run out.
- Strings compare by character; Go compares bytes, which is the same for the names Kubernetes allows.

/** Many scalers at once. Every list operation, refresh and update is one step; "check the list, then put the item
    on it" is one step; the steps of all scalers, the reconciles and the environment interleave in any order. */
module System {
  import opened Items
  import opened DenyList
  import opened ScalerMachine
  import opened ScalerSafety

  datatype Sys = Sys(sh: Shared, scalers: map<nat, Scaler>)

  datatype Event =
    | Turn(id: nat, out: Outcome)                    // scaler id takes its next step
    | ReconcileNs(id: nat, item: ScalingInfo)        // ReconcileNamespace reaches an item; id is for a scaler to start
    | ReconcileItem(id: nat, item: ScalingInfo)      // ReconcileScalingItem reaches its list check
    | Outside(e: EnvMove)

  /** ScaleOrStepScale up to the item being on the list. */
  function Launch(sys: Sys, id: nat, item: ScalingInfo): Sys {
    if item.spec == item.desired && !item.failure then sys
    else Sys(Started(sys.sh, item).sh, sys.scalers[id := Fresh(item)])
  }

  function Redirect(sys: Sys, k: Key, target: int): Sys {
    sys.(sh := EnvStep(sys.sh, Retarget(k, target)))
  }

  /** A listed item is redirected when its target differs, any other is scaled; nothing happens to an item that is where
      it should be, or whose target is undetermined. */
  function OnReconcileNs(sys: Sys, id: nat, item: ScalingInfo): Sys {
    if item.spec == item.desired || item.desired == -1 then sys
    else
      var (listed, found) := Lookup(sys.sh.deny, item);
      if !found then Launch(sys, id, item)
      else if listed.desired != item.desired then Redirect(sys, KeyOf(item), item.desired) else sys
  }

  /** The same for a single item, except that a listed item in failure state is scaled again, as the list has it. */
  function OnReconcileItem(sys: Sys, id: nat, item: ScalingInfo): Sys {
    if item.desired == -1 || (item.ready == item.desired && item.spec == item.desired) then sys
    else
      var (listed, found) := Lookup(sys.sh.deny, item);
      if !found || listed.failure then Launch(sys, id, listed)
      else if listed.desired != item.desired then Redirect(sys, KeyOf(item), item.desired) else sys
  }

  function After(sys: Sys, ev: Event): Sys {
    match ev
    case Turn(id, out) =>
      if id in sys.scalers then
        var (sh, sc) := Exec(sys.sh, sys.scalers[id], out);
        Sys(sh, sys.scalers[id := sc])
      else sys
    case ReconcileNs(id, item) => if id in sys.scalers then sys else OnReconcileNs(sys, id, item)
    case ReconcileItem(id, item) => if id in sys.scalers then sys else OnReconcileItem(sys, id, item)
    case Outside(e) => sys.(sh := EnvStep(sys.sh, e))
  }

  function Run(sys: Sys, evs: seq<Event>): Sys {
    if evs == [] then sys else After(Run(sys, evs[..|evs| - 1]), evs[|evs| - 1])
  }

  /** What can happen at all: Kubernetes keys are not empty, and whatever happens at a key has a name of its own here.
      */
  ghost predicate Possible(ev: Event) {
    match ev
    case Turn(_, _) => true
    case ReconcileNs(_, item) => Named(KeyOf(item))
    case ReconcileItem(_, item) => Named(KeyOf(item))
    case Outside(e) => !e.Foreign?
  }

  ghost predicate WellKeyed(deny: map<Key, ScalingInfo>) {
    forall q :: q in deny ==> KeyOf(deny[q]) == q && Named(q)
  }

  predicate Active(scalers: map<nat, Scaler>, id: nat) {
    id in scalers && !scalers[id].pc.Finished?
  }

  /** Which key each scaler at work has. */
  function Holders(scalers: map<nat, Scaler>): map<nat, Key> {
    map id | id in scalers && !scalers[id].pc.Finished? :: KeyOf(scalers[id].item)
  }

  ghost predicate AllOwn(scalers: map<nat, Scaler>) {
    forall id :: Active(scalers, id) ==> OwnItems(scalers[id], KeyOf(scalers[id].item))
  }

  ghost predicate Bijection(holders: map<nat, Key>, keys: set<Key>) {
    (forall id :: id in holders ==> holders[id] in keys) &&
    (forall q :: q in keys ==> exists id :: id in holders && holders[id] == q) &&
    (forall id, id' :: id in holders && id' in holders && holders[id] == holders[id'] ==> id == id')
  }

  /** Scalers at work and keys on the deny list correspond one to one. */
  ghost predicate OneToOne(sys: Sys) {
    WellKeyed(sys.sh.deny) && AllOwn(sys.scalers) && Bijection(Holders(sys.scalers), sys.sh.deny.Keys)
  }

  /** The two ways out: a listed object is deleted, so its scaler is off the list; or an item is reconciled while the
      list shows it in failure state, so a second scaler starts on it. */
  ghost predicate Breaks(sys: Sys, ev: Event) {
    match ev
    case Outside(e) => e.Deletion? && e.key in sys.sh.deny
    case ReconcileItem(id, item) =>
      id !in sys.scalers && item.desired != -1 && !(item.ready == item.desired && item.spec == item.desired) &&
      KeyOf(item) in sys.sh.deny && sys.sh.deny[KeyOf(item)].failure
    case _ => false
  }

  // ----- one step of one scaler, seen from the others

  /** The scaler's own key stays on the list until the step that ends it. */
  lemma {:induction false} OwnKeyStays(sh: Shared, sc: Scaler, k: Key, out: Outcome)
    requires Keyed(sh, sc, k) && !sc.pc.Finished? && k in sh.deny
    ensures Exec(sh, sc, out).1.item == sc.item
    ensures k in Exec(sh, sc, out).0.deny <==> !Exec(sh, sc, out).1.pc.Finished?
  {
    hide Refresh, AllowsAutoscaling, OptedIn, Decide;
    DecideKeeps(sc);
    if sc.pc.Poll? || sc.pc.Attempt? { RefreshFacts(k, sh, sc.pc.item, !out.GetFails?); }
  }

  lemma {:induction false} DecideKeeps(sc: Scaler)
    ensures forall item :: Decide(sc, item).item == sc.item && !Decide(sc, item).pc.Finished?
  {
    hide AllowsAutoscaling;
  }

  /** A step leaves the list as it was but for the scaler's own entry. */
  lemma {:induction false} StepOnList(sh: Shared, sc: Scaler, k: Key, out: Outcome)
    requires Keyed(sh, sc, k) && WellKeyed(sh.deny) && !sc.pc.Finished? && k in sh.deny
    ensures var (sh', sc') := Exec(sh, sc, out);
            WellKeyed(sh'.deny) && OwnItems(sc', k) && sc'.item == sc.item &&
            sh'.deny.Keys == (if sc'.pc.Finished? then sh.deny.Keys - {k} else sh.deny.Keys) &&
            (forall q :: q in sh'.deny && q != k ==> q in sh.deny && sh'.deny[q] == sh.deny[q])
  {
    OwnKeyStays(sh, sc, k, out);
    KeyedExec(sh, sc, k, out);
    var sh' := Exec(sh, sc, out).0;
    forall q | q != k ensures (q in sh'.deny <==> q in sh.deny) && (q in sh.deny ==> sh'.deny[q] == sh.deny[q]) {
      StepFrame(sh, sc, k, out, q);
      assert ZERO_KEY !in sh.deny;
      if q == ZERO_KEY { NothingNameless(sh, sc, k, out); }
    }
    hide Exec, OwnItems;
  }

  lemma {:induction false} NothingNameless(sh: Shared, sc: Scaler, k: Key, out: Outcome)
    requires Keyed(sh, sc, k) && ZERO_KEY !in sh.deny
    ensures ZERO_KEY !in Exec(sh, sc, out).0.deny
  {
    hide Refresh, AllowsAutoscaling, OptedIn, Decide;
    if sc.pc.Poll? || sc.pc.Attempt? { RefreshFacts(k, sh, sc.pc.item, !out.GetFails?); }
  }

  lemma {:induction false} BijectionDrop(h: map<nat, Key>, keys: set<Key>, id: nat)
    requires Bijection(h, keys) && id in h
    ensures Bijection(h - {id}, keys - {h[id]})
  {
    forall q | q in keys - {h[id]} ensures exists i :: i in h - {id} && (h - {id})[i] == q {
      var i :| i in h && h[i] == q;
      assert i in h - {id};
    }
  }

  lemma {:induction false} BijectionAdd(h: map<nat, Key>, keys: set<Key>, id: nat, k: Key)
    requires Bijection(h, keys) && id !in h && k !in keys
    ensures Bijection(h[id := k], keys + {k})
  {
    var g := h[id := k];
    forall q | q in keys + {k} ensures exists i :: i in g && g[i] == q {
      if q == k { assert g[id] == q; } else { var i :| i in h && h[i] == q; assert g[i] == q; }
    }
  }

  lemma {:induction false} HoldersUpdate(scalers: map<nat, Scaler>, id: nat, sc: Scaler)
    ensures Holders(scalers[id := sc]) ==
            if sc.pc.Finished? then Holders(scalers) - {id} else Holders(scalers)[id := KeyOf(sc.item)]
    ensures AllOwn(scalers) && OwnItems(sc, KeyOf(sc.item)) ==> AllOwn(scalers[id := sc])
  {
    hide OwnItems;
  }

  /** What a scaler at work can rely on. */
  lemma {:induction false} AtWork(sys: Sys, id: nat)
    requires OneToOne(sys) && Active(sys.scalers, id)
    ensures var k := KeyOf(sys.scalers[id].item);
            WellKeyed(sys.sh.deny) && k in sys.sh.deny && Keyed(sys.sh, sys.scalers[id], k) &&
                OwnItems(sys.scalers[id], k) &&
            id in Holders(sys.scalers) && Holders(sys.scalers)[id] == k
  {
    assert id in Holders(sys.scalers);
    hide OwnItems;
  }

  /** A scaler's step, or a new scaler: the scalers and the list change together. */
  lemma {:induction false} UpdateOneToOne(sys: Sys, id: nat, sh: Shared, sc: Scaler)
    requires OneToOne(sys) && WellKeyed(sh.deny) && OwnItems(sc, KeyOf(sc.item))
    requires var k, keys := KeyOf(sc.item), sys.sh.deny.Keys;
             if Active(sys.scalers, id)
             then k == KeyOf(sys.scalers[id].item) && sh.deny.Keys == (if sc.pc.Finished? then keys - {k} else keys)
             else id !in sys.scalers && !sc.pc.Finished? && k !in keys && sh.deny.Keys == keys + {k}
    ensures OneToOne(Sys(sh, sys.scalers[id := sc]))
  {
    hide Bijection, OwnItems, AllOwn, Holders, WellKeyed, Keyed;
    var h, k, keys := Holders(sys.scalers), KeyOf(sc.item), sys.sh.deny.Keys;
    HoldersUpdate(sys.scalers, id, sc);
    HoldersAreActive(sys.scalers, id);
    if Active(sys.scalers, id) {
      AtWork(sys, id);
      BijectionDrop(h, keys, id);
      assert h[id := k] == h;
    } else {
      BijectionAdd(h, keys, id, k);
    }
  }

  lemma {:induction false} HoldersAreActive(scalers: map<nat, Scaler>, id: nat)
    ensures id in Holders(scalers) <==> Active(scalers, id)
  {
  }

  lemma {:induction false} TurnKeepsOneToOne(sys: Sys, id: nat, out: Outcome)
    requires OneToOne(sys) && Active(sys.scalers, id)
    ensures OneToOne(After(sys, Turn(id, out)))
  {
    AtWork(sys, id);
    hide Exec, OneToOne, OwnItems, Holders, Keyed, WellKeyed;
    var sc := sys.scalers[id];
    StepOnList(sys.sh, sc, KeyOf(sc.item), out);
    UpdateOneToOne(sys, id, Exec(sys.sh, sc, out).0, Exec(sys.sh, sc, out).1);
  }

  lemma {:induction false} LaunchKeepsOneToOne(sys: Sys, id: nat, item: ScalingInfo)
    requires OneToOne(sys) && id !in sys.scalers && Named(KeyOf(item)) && KeyOf(item) !in sys.sh.deny
    ensures OneToOne(Launch(sys, id, item))
  {
    hide Fresh, OneToOne, OwnItems, WellKeyed;
    FreshIsOwn(item);
    var deny := sys.sh.deny[KeyOf(item) := item.(isBeingScaled := true)];
    assert deny.Keys == sys.sh.deny.Keys + {KeyOf(item)};
    EntryIsKeyed(sys, item.(isBeingScaled := true));
    UpdateOneToOne(sys, id, sys.sh.(deny := deny), Fresh(item));
  }

  lemma {:induction false} EntryIsKeyed(sys: Sys, entry: ScalingInfo)
    requires OneToOne(sys) && Named(KeyOf(entry))
    ensures WellKeyed(sys.sh.deny[KeyOf(entry) := entry])
  {
    hide AllOwn, Bijection;
  }

  lemma {:induction false} FreshIsOwn(item: ScalingInfo)
    requires Named(KeyOf(item))
    ensures OwnItems(Fresh(item), KeyOf(item)) && !Fresh(item).pc.Finished?
    ensures KeyOf(Fresh(item).item) == KeyOf(item) && Fresh(item).item.failure == item.failure &&
            !GivingUp(Fresh(item).pc)
  {
    hide RapidScaling;
  }

  lemma {:induction false} OutsideKeepsOneToOne(sys: Sys, e: EnvMove)
    requires OneToOne(sys) && !e.Foreign? && !(e.Deletion? && e.key in sys.sh.deny)
    ensures OneToOne(sys.(sh := EnvStep(sys.sh, e)))
  {
    hide OptedIn, AllOwn, Bijection;
    assert EnvStep(sys.sh, e).deny.Keys == sys.sh.deny.Keys;
  }

  lemma {:induction false} FinishedStays(sys: Sys, id: nat, out: Outcome)
    requires !Active(sys.scalers, id)
    ensures After(sys, Turn(id, out)) == sys
  {
    if id in sys.scalers { assert sys.scalers[id := sys.scalers[id]] == sys.scalers; }
  }

  lemma {:induction false} KeepsOneToOne(sys: Sys, ev: Event)
    requires OneToOne(sys) && Possible(ev) && !Breaks(sys, ev)
    ensures OneToOne(After(sys, ev))
  {
    match ev
    case Turn(id, out) =>
      hide OneToOne, Exec;
      if Active(sys.scalers, id) { TurnKeepsOneToOne(sys, id, out); } else { FinishedStays(sys, id, out); }
    case Outside(e) => hide OneToOne, EnvStep; OutsideKeepsOneToOne(sys, e);
    case ReconcileNs(id, item) =>
      hide OneToOne, Launch, EnvStep;
      if id !in sys.scalers && KeyOf(item) !in sys.sh.deny { LaunchKeepsOneToOne(sys, id, item); }
      OutsideKeepsOneToOne(sys, Retarget(KeyOf(item), item.desired));
    case ReconcileItem(id, item) =>
      hide OneToOne, Launch, EnvStep;
      if id !in sys.scalers && KeyOf(item) !in sys.sh.deny { LaunchKeepsOneToOne(sys, id, item); }
      OutsideKeepsOneToOne(sys, Retarget(KeyOf(item), item.desired));
  }

  lemma {:induction false} SomebodyHolds(sys: Sys, k: Key) returns (id: nat)
    requires OneToOne(sys) && k in sys.sh.deny
    ensures Active(sys.scalers, id) && KeyOf(sys.scalers[id].item) == k
  {
    hide OwnItems, WellKeyed;
    id :| id in Holders(sys.scalers) && Holders(sys.scalers)[id] == k;
  }

  lemma {:induction false} Unlisted(sys: Sys, id: nat)
    requires Active(sys.scalers, id) && KeyOf(sys.scalers[id].item) !in sys.sh.deny
    ensures !OneToOne(sys)
  {
    hide OwnItems, WellKeyed;
    assert id in Holders(sys.scalers);
  }

  lemma {:induction false} TwoOnOneKey(sys: Sys, id: nat, other: nat)
    requires Active(sys.scalers, id) && Active(sys.scalers, other) && id != other
    requires KeyOf(sys.scalers[id].item) == KeyOf(sys.scalers[other].item)
    ensures !OneToOne(sys)
  {
    hide OwnItems, WellKeyed;
    assert id in Holders(sys.scalers) && other in Holders(sys.scalers);
  }

  lemma {:induction false} BreaksOneToOne(sys: Sys, ev: Event)
    requires OneToOne(sys) && Possible(ev) && Breaks(sys, ev)
    ensures !OneToOne(After(sys, ev))
  {
    hide OneToOne, Fresh, OwnItems;
    match ev
    case Outside(e) =>
      var id := SomebodyHolds(sys, e.key);
      Unlisted(After(sys, ev), id);
    case ReconcileItem(id, item) =>
      var k := KeyOf(item);
      var other := SomebodyHolds(sys, k);
      FreshIsOwn(sys.sh.deny[k]) by { KeyedEntry(sys, k); }
      KeyedEntry(sys, k);
      TwoOnOneKey(After(sys, ev), id, other);
  }

  lemma {:induction false} KeyedEntry(sys: Sys, k: Key)
    requires OneToOne(sys) && k in sys.sh.deny
    ensures KeyOf(sys.sh.deny[k]) == k && Named(k)
  {
    hide AllOwn, Bijection;
  }

  /** From any state with one scaler per listed item, a step keeps it that way if and only if it neither deletes a
      listed object nor reconciles an item the list shows in failure state. */
  lemma {:induction false} OneToOneIff(sys: Sys, ev: Event)
    requires OneToOne(sys) && Possible(ev)
    ensures OneToOne(After(sys, ev)) <==> !Breaks(sys, ev)
  {
    hide OneToOne, After, Breaks;
    if Breaks(sys, ev) { BreaksOneToOne(sys, ev); } else { KeepsOneToOne(sys, ev); }
  }

  const IDLE: map<nat, Scaler> := map[]

  /** One scaler per item, in every reachable state of every interleaving in which no step breaks it. */
  lemma {:induction false} OneScalerPerItem(cluster: map<Key, Obj>, evs: seq<Event>)
    requires forall i :: 0 <= i < |evs| ==>
               Possible(evs[i]) && !Breaks(Run(Sys(Shared(cluster, map[]), IDLE), evs[..i]), evs[i])
    ensures OneToOne(Run(Sys(Shared(cluster, map[]), IDLE), evs))
  {
    var sys := Sys(Shared(cluster, map[]), IDLE);
    if evs != [] {
      var before := evs[..|evs| - 1];
      forall i | 0 <= i < |before| ensures Possible(before[i]) && !Breaks(Run(sys, before[..i]), before[i]) {
        assert before[..i] == evs[..i] && before[i] == evs[i];
      }
      OneScalerPerItem(cluster, before);
      hide OneToOne, Breaks, After;
      KeepsOneToOne(Run(sys, before), evs[|evs| - 1]);
    }
  }

  /** The quota check of a single item is about the target it asks for; a listed failing item is scaled as the list has
      it. The scaler started aims at the target that was checked if and only if the item is not listed as failing with
      another one. */
  lemma {:induction false} StartsOnCheckedTarget(sys: Sys, id: nat, item: ScalingInfo)
    requires id !in sys.scalers
    requires var after := After(sys, ReconcileItem(id, item)); id in after.scalers
    ensures var sc, (listed, found) := After(sys, ReconcileItem(id, item)).scalers[id], Lookup(sys.sh.deny, item);
            sc.target == item.desired <==> !(found && listed.failure && listed.desired != item.desired)
  {
    hide RapidScaling;
  }

  // ----- failing as one step

  predicate GivingUp(pc: Pc) {
    pc.Mark? || pc == Release(false)
  }

  /** Runs a failing scaler to its end. */
  function Drained(sh: Shared, sc: Scaler): (Shared, Scaler) {
    if sc.pc.Mark? then
      var (sh', sc') := Exec(sh, sc, Fine);
      Exec(sh', sc', Fine)
    else if sc.pc == Release(false) then Exec(sh, sc, Fine)
    else (sh, sc)
  }

  function CoarseAfter(sys: Sys, ev: Event): Sys {
    if ev.Turn? && ev.id in sys.scalers then
      var next := After(sys, ev);
      var (sh, sc) := Drained(next.sh, next.scalers[ev.id]);
      Sys(sh, next.scalers[ev.id := sc])
    else After(sys, ev)
  }

  function CoarseRun(sys: Sys, evs: seq<Event>): Sys {
    if evs == [] then sys else CoarseAfter(CoarseRun(sys, evs[..|evs| - 1]), evs[|evs| - 1])
  }

  /** No deletions, no opt-outs, and the items reconciled are not failing, as target determination leaves them. */
  ghost predicate Undisturbed(ev: Event) {
    Possible(ev) &&
    (ev.Outside? ==> !ev.e.Deletion? && !ev.e.OptOut?) &&
    (ev.ReconcileNs? || ev.ReconcileItem? ==> !ev.item.failure)
  }

  ghost predicate NoneFails(scalers: map<nat, Scaler>) {
    forall id :: Active(scalers, id) ==> !scalers[id].item.failure && !GivingUp(scalers[id].pc)
  }

  ghost predicate NoFailureSeen(sys: Sys) {
    (forall q :: q in sys.sh.deny ==> !sys.sh.deny[q].failure) && NoneFails(sys.scalers)
  }

  /** A step either gives up, or leaves the scaler's own entry without a failure. */
  lemma {:induction false} StepSeesNoFailure(sh: Shared, sc: Scaler, k: Key, out: Outcome)
    requires Keyed(sh, sc, k) && k in sh.deny && !sh.deny[k].failure && !sc.item.failure
    requires !sc.pc.Finished? && !GivingUp(sc.pc)
    ensures var (sh', sc') := Exec(sh, sc, out);
            GivingUp(sc'.pc) || k !in sh'.deny || !sh'.deny[k].failure
  {
    hide Refresh, AllowsAutoscaling, OptedIn, Decide;
    DecideKeeps(sc);
    if sc.pc.Poll? || sc.pc.Attempt? { RefreshFacts(k, sh, sc.pc.item, !out.GetFails?); }
  }

  /** One step of an active scaler, packaged for the runs of several. */
  lemma {:induction false} OneTurn(sys: Sys, id: nat, out: Outcome)
    requires OneToOne(sys) && Active(sys.scalers, id)
    ensures var sc := sys.scalers[id];
            var (sh', sc') := Exec(sys.sh, sc, out);
            OneToOne(Sys(sh', sys.scalers[id := sc'])) && sc'.item == sc.item &&
            (sc'.pc.Finished? ==> KeyOf(sc.item) !in sh'.deny) &&
            (forall q :: q in sh'.deny && q != KeyOf(sc.item) ==> q in sys.sh.deny && sh'.deny[q] == sys.sh.deny[q])
  {
    AtWork(sys, id);
    hide Exec, OneToOne, OwnItems, Holders, Keyed, WellKeyed;
    var sc := sys.scalers[id];
    StepOnList(sys.sh, sc, KeyOf(sc.item), out);
    UpdateOneToOne(sys, id, Exec(sys.sh, sc, out).0, Exec(sys.sh, sc, out).1);
  }

  /** Giving up, a scaler's next steps take it off the list. */
  lemma {:induction false} Draining(sys: Sys, id: nat)
    requires OneToOne(sys) && Active(sys.scalers, id) && GivingUp(sys.scalers[id].pc)
    ensures var (sh, sc) := Drained(sys.sh, sys.scalers[id]);
            OneToOne(Sys(sh, sys.scalers[id := sc])) && sc.pc.Finished? && KeyOf(sys.scalers[id].item) !in sh.deny &&
            (forall q :: q in sh.deny ==> q in sys.sh.deny && sh.deny[q] == sys.sh.deny[q])
  {
    var sc := sys.scalers[id];
    var (sh1, sc1) := Exec(sys.sh, sc, Fine);
    var (sh2, sc2) := Exec(sh1, sc1, Fine);
    var s1 := Sys(sh1, sys.scalers[id := sc1]);
    assert s1.scalers[id := sc2] == sys.scalers[id := sc2];
    assert sc.pc.Mark? ==> sc1.pc == Release(false) && sc2.pc.Finished?;
    assert sc.pc.Release? ==> sc1.pc.Finished?;
    hide Exec, OneToOne;
    OneTurn(sys, id, Fine);
    if sc.pc.Mark? { OneTurn(s1, id, Fine); }
  }

  lemma {:induction false} NoneFailsUpdate(scalers: map<nat, Scaler>, id: nat, sc: Scaler)
    requires NoneFails(scalers) && (sc.pc.Finished? || (!sc.item.failure && !GivingUp(sc.pc)))
    ensures NoneFails(scalers[id := sc])
  {
  }

  lemma {:induction false} CoarseTurnIs(sys: Sys, id: nat, out: Outcome)
    requires Active(sys.scalers, id)
    ensures var (sh1, sc1) := Exec(sys.sh, sys.scalers[id], out);
            var (sh2, sc2) := Drained(sh1, sc1);
            CoarseAfter(sys, Turn(id, out)) == Sys(sh2, sys.scalers[id := sc2])
  {
    hide Exec, Drained;
    var (sh1, sc1) := Exec(sys.sh, sys.scalers[id], out);
    var (sh2, sc2) := Drained(sh1, sc1);
    assert sys.scalers[id := sc1][id := sc2] == sys.scalers[id := sc2];
  }

  /** A scaler that gives up is gone with its entry; one that goes on leaves its entry without a failure. */
  lemma {:induction false} DrainedOrSound(sys: Sys, id: nat, sh1: Shared, sc1: Scaler)
    requires Active(sys.scalers, id) && OneToOne(Sys(sh1, sys.scalers[id := sc1])) && sc1.item == sys.scalers[id].item
    requires sc1.pc.Finished? ==> KeyOf(sc1.item) !in sh1.deny
    requires var k := KeyOf(sc1.item); GivingUp(sc1.pc) || k !in sh1.deny || !sh1.deny[k].failure
    ensures var (sh2, sc2) := Drained(sh1, sc1);
            OneToOne(Sys(sh2, sys.scalers[id := sc2])) && (sc2.pc.Finished? || (sc2 == sc1 && !GivingUp(sc2.pc))) &&
            var k := KeyOf(sc1.item);
            (k in sh2.deny ==> !sh2.deny[k].failure) &&
                forall q :: q in sh2.deny ==> q in sh1.deny && sh2.deny[q] == sh1.deny[q]
  {
    hide Exec, OneToOne;
    var s1 := Sys(sh1, sys.scalers[id := sc1]);
    if GivingUp(sc1.pc) {
      hide Drained;
      Draining(s1, id);
      assert s1.scalers[id := Drained(sh1, sc1).1] == sys.scalers[id := Drained(sh1, sc1).1];
    }
  }

  lemma {:induction false} NoFailureIn(sys: Sys, id: nat)
    requires NoFailureSeen(sys) && Active(sys.scalers, id) && OneToOne(sys)
    ensures var sc := sys.scalers[id];
            !sc.item.failure && !GivingUp(sc.pc) && KeyOf(sc.item) in sys.sh.deny &&
                !sys.sh.deny[KeyOf(sc.item)].failure
  {
    hide Keyed, OwnItems, Holders, WellKeyed;
    AtWork(sys, id);
  }

  lemma {:induction false} CoarseTurn(sys: Sys, id: nat, out: Outcome)
    requires OneToOne(sys) && NoFailureSeen(sys) && Active(sys.scalers, id)
    ensures OneToOne(CoarseAfter(sys, Turn(id, out))) && NoFailureSeen(CoarseAfter(sys, Turn(id, out)))
  {
    hide Exec, OneToOne, CoarseAfter, After, OwnItems, Holders, Keyed, WellKeyed, Drained, GivingUp, NoneFails;
    var sc := sys.scalers[id];
    var (sh1, sc1) := Exec(sys.sh, sc, out);
    var (sh2, sc2) := Drained(sh1, sc1);
    CoarseTurnIs(sys, id, out);
    NoFailureIn(sys, id);
    AtWork(sys, id);
    StepSeesNoFailure(sys.sh, sc, KeyOf(sc.item), out);
    OneTurn(sys, id, out);
    DrainedOrSound(sys, id, sh1, sc1);
    NoneFailsUpdate(sys.scalers, id, sc2);
  }

  lemma {:induction false} CoarseIdle(sys: Sys, id: nat, out: Outcome)
    requires !Active(sys.scalers, id)
    ensures CoarseAfter(sys, Turn(id, out)) == sys
  {
    FinishedStays(sys, id, out);
    if id in sys.scalers { assert sys.scalers[id := sys.scalers[id]] == sys.scalers; }
  }

  lemma {:induction false} LaunchSeesNoFailure(sys: Sys, id: nat, item: ScalingInfo)
    requires NoFailureSeen(sys) && id !in sys.scalers && Named(KeyOf(item)) && !item.failure
    ensures NoFailureSeen(Launch(sys, id, item))
  {
    FreshIsOwn(item);
    hide Fresh, OwnItems;
    assert forall i :: Active(Launch(sys, id, item).scalers, i) && i != id ==> Active(sys.scalers, i);
  }

  lemma {:induction false} OutsideSeesNoFailure(sys: Sys, e: EnvMove)
    requires NoFailureSeen(sys) && !e.Foreign? && !e.OptOut?
    ensures NoFailureSeen(sys.(sh := EnvStep(sys.sh, e)))
  {
    hide NoneFails;
  }

  lemma {:induction false} CoarseKeeps(sys: Sys, ev: Event)
    requires OneToOne(sys) && NoFailureSeen(sys) && Undisturbed(ev)
    ensures OneToOne(CoarseAfter(sys, ev)) && NoFailureSeen(CoarseAfter(sys, ev))
  {
    match ev
    case Turn(id, out) =>
      hide OneToOne, NoFailureSeen, Exec;
      if Active(sys.scalers, id) { CoarseTurn(sys, id, out); } else { CoarseIdle(sys, id, out); }
    case Outside(e) =>
      KeepsOneToOne(sys, ev);
      hide OneToOne, NoFailureSeen, EnvStep;
      OutsideSeesNoFailure(sys, e);
    case ReconcileNs(id, item) => CoarseReconcile(sys, id, item, ev);
    case ReconcileItem(id, item) => CoarseReconcile(sys, id, item, ev);
  }

  lemma {:induction false} CoarseReconcile(sys: Sys, id: nat, item: ScalingInfo, ev: Event)
    requires OneToOne(sys) && NoFailureSeen(sys) && Undisturbed(ev)
    requires ev == ReconcileNs(id, item) || ev == ReconcileItem(id, item)
    ensures OneToOne(CoarseAfter(sys, ev)) && NoFailureSeen(CoarseAfter(sys, ev))
  {
    assert !Breaks(sys, ev);
    hide OneToOne, EnvStep, Launch;
    KeepsOneToOne(sys, ev);
    var listed := Lookup(sys.sh.deny, item).0;
    assert !listed.failure && (KeyOf(item) !in sys.sh.deny ==> listed == item);
    hide NoFailureSeen, Breaks;
    if id !in sys.scalers { LaunchSeesNoFailure(sys, id, item); }
    OutsideSeesNoFailure(sys, Retarget(KeyOf(item), item.desired));
  }

  /** With recording a failure and leaving the list taken as one step, and no deletions and opt-outs, every run keeps
      scalers and list in one-to-one correspondence, and nobody ever sees a listed item in failure state. */
  lemma {:induction false} OneScalerPerItemCoarsely(cluster: map<Key, Obj>, evs: seq<Event>)
    requires forall i :: 0 <= i < |evs| ==> Undisturbed(evs[i])
    ensures OneToOne(CoarseRun(Sys(Shared(cluster, map[]), IDLE), evs))
    ensures NoFailureSeen(CoarseRun(Sys(Shared(cluster, map[]), IDLE), evs))
  {
    if evs != [] {
      OneScalerPerItemCoarsely(cluster, evs[..|evs| - 1]);
      hide OneToOne, NoFailureSeen, CoarseAfter;
      CoarseKeeps(CoarseRun(Sys(Shared(cluster, map[]), IDLE), evs[..|evs| - 1]), evs[|evs| - 1]);
    }
  }

  // ----- why the failure state must not be seen

  lemma {:induction false} TimeoutShows(cluster: map<Key, Obj>, item: ScalingInfo)
    requires Named(KeyOf(item)) && item.spec != item.desired && item.desired != -1 && !RapidScaling(item)
    ensures var s1 := After(Sys(Shared(cluster, map[]), IDLE), ReconcileNs(0, item));
            var s4 := After(After(After(s1, Turn(0, Fine)), Turn(0, TimeoutFires)), Turn(0, Fine));
            KeyOf(item) in s4.sh.deny && s4.sh.deny[KeyOf(item)].failure && 1 !in s4.scalers
  {
    hide RapidScaling, Refresh, AllowsAutoscaling, OptedIn;
    var sys := Sys(Shared(cluster, map[]), IDLE);
    var s1 := After(sys, ReconcileNs(0, item));
    assert s1 == Launch(sys, 0, item) && s1.scalers[0] == Fresh(item);
    var s2 := After(s1, Turn(0, Fine));
    assert s2.scalers[0].pc.Poll? && KeyOf(s2.scalers[0].pc.item) == KeyOf(item);
    var s3 := After(s2, Turn(0, TimeoutFires));
    assert s3.scalers[0].pc.Mark? && KeyOf(s3.scalers[0].pc.item) == KeyOf(item);
  }

  /** A scaler starts, its wait times out, and it records the failure. */
  function UpToFailure(item: ScalingInfo): seq<Event> {
    [ReconcileNs(0, item), Turn(0, Fine), Turn(0, TimeoutFires), Turn(0, Fine)]
  }

  lemma {:induction false} FailureShows(cluster: map<Key, Obj>, item: ScalingInfo)
    requires Named(KeyOf(item)) && item.spec != item.desired && item.desired != -1 && !RapidScaling(item)
    ensures var s4 := Run(Sys(Shared(cluster, map[]), IDLE), UpToFailure(item));
            OneToOne(s4) && KeyOf(item) in s4.sh.deny && s4.sh.deny[KeyOf(item)].failure && 1 !in s4.scalers
  {
    var sys, evs := Sys(Shared(cluster, map[]), IDLE), UpToFailure(item);
    TimeoutShows(cluster, item);
    hide After, OneToOne, RapidScaling, Breaks;
    RunFour(sys, ReconcileNs(0, item), Turn(0, Fine), Turn(0, TimeoutFires), Turn(0, Fine));
    hide Run;
    forall i | 0 <= i < |evs| ensures Possible(evs[i]) && !Breaks(Run(sys, evs[..i]), evs[i]) {
      Harmless(Run(sys, evs[..i]), evs[i]);
    }
    OneScalerPerItem(cluster, evs);
  }

  /** It can be seen: while a scaler that timed out has recorded its failure but not yet left the list, reconciling the
      same item starts a second scaler beside it. */
  lemma {:induction false} TwoScalersCanMeet(cluster: map<Key, Obj>, item: ScalingInfo)
    requires Named(KeyOf(item)) && item.spec != item.desired && item.desired != -1 && !RapidScaling(item)
    ensures !OneToOne(Run(Sys(Shared(cluster, map[]), IDLE), UpToFailure(item) + [ReconcileItem(1, item)]))
  {
    hide After, OneToOne, RapidScaling, Breaks, Run, UpToFailure;
    var sys := Sys(Shared(cluster, map[]), IDLE);
    FailureShows(cluster, item);
    SecondStart(Run(sys, UpToFailure(item)), 1, item);
    OneToOneIff(Run(sys, UpToFailure(item)), ReconcileItem(1, item));
    RunSnoc(sys, UpToFailure(item), ReconcileItem(1, item));
  }

  lemma {:induction false} Harmless(sys: Sys, ev: Event)
    requires ev.Turn? || ev.ReconcileNs?
    ensures !Breaks(sys, ev)
  {
  }

  lemma {:induction false} SecondStart(sys: Sys, id: nat, item: ScalingInfo)
    requires KeyOf(item) in sys.sh.deny && sys.sh.deny[KeyOf(item)].failure && id !in sys.scalers
    requires item.spec != item.desired && item.desired != -1
    ensures Breaks(sys, ReconcileItem(id, item))
  {
  }

  lemma {:induction false} RunFour(sys: Sys, a: Event, b: Event, c: Event, d: Event)
    ensures Run(sys, [a, b, c, d]) == After(After(After(After(sys, a), b), c), d)
  {
    hide After;
    RunSnoc(sys, [], a);
    RunSnoc(sys, [a], b);
    RunSnoc(sys, [a, b], c);
    RunSnoc(sys, [a, b, c], d);
    assert [] + [a] == [a] && [a] + [b] == [a, b] && [a, b] + [c] == [a, b, c] && [a, b, c] + [d] == [a, b, c, d];
  }

  lemma {:induction false} RunSnoc(sys: Sys, evs: seq<Event>, ev: Event)
    ensures Run(sys, evs + [ev]) == After(Run(sys, evs), ev)
  {
    assert (evs + [ev])[..|evs|] == evs;
  }

  // ----- runs of one scaler

  lemma {:induction false} PlayOne(w: World, m: Move)
    ensures Play(w, [m]) == Next(w, m)
  {
    PlaySnoc(w, [], m);
    assert [] + [m] == [m];
  }

  lemma {:induction false} SameItem(w: World, ms: seq<Move>)
    ensures Play(w, ms).sc.item == w.sc.item
  {
    if ms != [] {
      SameItem(w, ms[..|ms| - 1]);
      var v := Play(w, ms[..|ms| - 1]);
      hide Refresh, AllowsAutoscaling, OptedIn, EnvStep, Decide;
      DecideKeeps(v.sc);
    }
  }
}

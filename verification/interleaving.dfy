/** One scaler among any number of others: what it goes through in an interleaving is a run of its own. */
module Interleaving {
  import opened Items
  import opened DenyList
  import opened ScalerMachine
  import opened ScalerSafety
  import opened System
  import opened Bounds

  // ----- what a reconcile touches

  /** Only at k has anything happened, to the list or by a scaler being started. */
  ghost predicate OnlyAt(sys: Sys, sys': Sys, k: Key) {
    SameButAt(sys.sh, sys'.sh, k) && sys'.sh.cluster == sys.sh.cluster &&
    forall id :: id in sys'.scalers ==>
      KeyOf(sys'.scalers[id].item) == k || (id in sys.scalers && sys'.scalers[id] == sys.scalers[id])
  }

  lemma {:induction false} LaunchAt(sys: Sys, id: nat, item: ScalingInfo)
    ensures OnlyAt(sys, Launch(sys, id, item), KeyOf(item))
  {
  }

  lemma {:induction false} RedirectAt(sys: Sys, k: Key, target: int)
    ensures OnlyAt(sys, Redirect(sys, k, target), k) && OnlyAt(sys, sys, k)
  {
  }

  lemma {:induction false} ReconcileAt(sys: Sys, ev: Event)
    requires WellKeyed(sys.sh.deny) && (ev.ReconcileNs? || ev.ReconcileItem?)
    ensures OnlyAt(sys, After(sys, ev), KeyOf(ev.item))
  {
    hide Launch, Redirect, OnlyAt;
    LaunchAt(sys, ev.id, ev.item);
    LaunchAt(sys, ev.id, Lookup(sys.sh.deny, ev.item).0);
    RedirectAt(sys, KeyOf(ev.item), ev.item.desired);
  }

  /** A scaler at work is left as it is by all but its own steps. */
  lemma {:induction false} ScalerStays(sys: Sys, ev: Event, id: nat)
    requires id in sys.scalers && !ev.Turn?
    ensures id in After(sys, ev).scalers && After(sys, ev).scalers[id] == sys.scalers[id]
  {
    hide Fresh, Started, EnvStep;
  }

  // ----- alone on its key

  /** No other scaler at work has the key of scaler id. */
  ghost predicate Alone(sys: Sys, id: nat) {
    WellKeyed(sys.sh.deny) && AllOwn(sys.scalers) && Active(sys.scalers, id) &&
    forall j :: Active(sys.scalers, j) && j != id ==> KeyOf(sys.scalers[j].item) != KeyOf(sys.scalers[id].item)
  }

  /** A scaler starts on key k: its item is reconciled, off its target, while k is not on the list or, by
      ReconcileScalingItem, while it is listed as failing. */
  ghost predicate Doubles(sys: Sys, ev: Event, k: Key) {
    match ev
    case ReconcileNs(id, item) =>
      KeyOf(item) == k && id !in sys.scalers && k !in sys.sh.deny && item.spec != item.desired && item.desired != -1
    case ReconcileItem(id, item) =>
      KeyOf(item) == k && id !in sys.scalers && item.desired != -1 &&
      !(item.ready == item.desired && item.spec == item.desired) &&
      if k in sys.sh.deny then sys.sh.deny[k].failure else item.spec != item.desired || item.failure
    case _ => false
  }

  lemma {:induction false} OwnReconcile(sys: Sys, ev: Event, k: Key)
    requires WellKeyed(sys.sh.deny) && Possible(ev) && (ev.ReconcileNs? || ev.ReconcileItem?) && KeyOf(ev.item) == k
    ensures !Doubles(sys, ev, k) ==>
              After(sys, ev) == sys || (k in sys.sh.deny && After(sys, ev) == Redirect(sys, k, ev.item.desired))
    ensures Doubles(sys, ev, k) ==>
              ev.id !in sys.scalers && Active(After(sys, ev).scalers, ev.id) &&
              KeyOf(After(sys, ev).scalers[ev.id].item) == k
  {
    hide EnvStep;
  }

  lemma {:induction false} KeysStay(sys: Sys, ev: Event, j: nat)
    requires AllOwn(sys.scalers) && WellKeyed(sys.sh.deny) && Active(After(sys, ev).scalers, j)
    requires ev.Turn? || ev.Outside?
    ensures Active(sys.scalers, j) && KeyOf(After(sys, ev).scalers[j].item) == KeyOf(sys.scalers[j].item)
  {
    hide Exec, EnvStep, WellKeyed, OwnItems;
    if ev.Turn? {
      if Active(sys.scalers, ev.id) {
        OwnStays(sys.sh, sys.scalers[ev.id], KeyOf(sys.scalers[ev.id].item), ev.out);
      } else {
        FinishedStays(sys, ev.id, ev.out);
      }
    }
  }

  lemma {:induction false} StaysKeyed(sys: Sys, ev: Event)
    requires WellKeyed(sys.sh.deny) && AllOwn(sys.scalers) && Possible(ev)
    ensures WellKeyed(After(sys, ev).sh.deny) && AllOwn(After(sys, ev).scalers)
  {
    hide After, WellKeyed, AllOwn;
    assert Hulled(sys, map[]);
    HulledAfter(sys, ev, map[]);
  }

  /** A scaler stays alone on its key if and only if no second one is started there: whatever happens at other keys,
      their restarts and deletions included, and even if its own object is deleted. */
  lemma {:induction false} AloneIff(sys: Sys, id: nat, ev: Event)
    requires Alone(sys, id) && Possible(ev) && Active(After(sys, ev).scalers, id)
    ensures Alone(After(sys, ev), id) <==> !Doubles(sys, ev, KeyOf(sys.scalers[id].item))
  {
    hide After, WellKeyed, AllOwn, Doubles, Redirect;
    var k, sys' := KeyOf(sys.scalers[id].item), After(sys, ev);
    StaysKeyed(sys, ev);
    if ev.Turn? || ev.Outside? {
      assert !Doubles(sys, ev, k) by { NotReconciled(sys, ev, k); }
      forall j | Active(sys'.scalers, j)
        ensures Active(sys.scalers, j) && KeyOf(sys'.scalers[j].item) == KeyOf(sys.scalers[j].item)
      {
        KeysStay(sys, ev, j);
      }
    } else {
      ScalerStays(sys, ev, id);
      ReconcileAt(sys, ev);
      if KeyOf(ev.item) == k {
        OwnReconcile(sys, ev, k);
        RedirectScalers(sys, k, ev.item.desired);
      } else {
        assert !Doubles(sys, ev, k) by { NotReconciled(sys, ev, k); }
      }
    }
  }

  lemma {:induction false} NotReconciled(sys: Sys, ev: Event, k: Key)
    requires ev.ReconcileNs? || ev.ReconcileItem? ==> KeyOf(ev.item) != k
    ensures !Doubles(sys, ev, k)
  {
  }

  lemma {:induction false} RedirectScalers(sys: Sys, k: Key, target: int)
    ensures Redirect(sys, k, target).scalers == sys.scalers
  {
  }

  // ----- the run of one scaler

  function EntryAt<T>(m: map<Key, T>, k: Key): Option<T> {
    if k in m then Some(m[k]) else None
  }

  /** What an event of the system is to scaler id: its own step, or a move of its environment. */
  function MovesOf(sys: Sys, ev: Event, id: nat): seq<Move>
    requires id in sys.scalers
  {
    var sh := After(sys, ev).sh;
    match ev
    case Turn(j, out) =>
      if j == id then [Go(out)]
      else if Active(sys.scalers, j) then
        var q := KeyOf(sys.scalers[j].item);
        [Env(Foreign(q, EntryAt(sh.cluster, q), EntryAt(sh.deny, q)))]
      else []
    case ReconcileNs(_, item) => ReconcileMoves(sys, sh, item, KeyOf(sys.scalers[id].item))
    case ReconcileItem(_, item) => ReconcileMoves(sys, sh, item, KeyOf(sys.scalers[id].item))
    case Outside(e) => [Env(e)]
  }

  function ReconcileMoves(sys: Sys, sh: Shared, item: ScalingInfo, k: Key): seq<Move> {
    var q := KeyOf(item);
    if sh == sys.sh then []
    else if q == k then [Env(Retarget(k, item.desired))]
    else [Env(Foreign(q, EntryAt(sh.cluster, q), EntryAt(sh.deny, q)))]
  }

  lemma {:induction false} NoMoves(w: World)
    ensures Play(w, []) == w
  {
  }

  /** A change at one key only is a move of somebody else there. */
  lemma {:induction false} ForeignIs(sh: Shared, sh': Shared, q: Key)
    requires SameButAt(sh, sh', q)
    ensures EnvStep(sh, Foreign(q, EntryAt(sh'.cluster, q), EntryAt(sh'.deny, q))) == sh'
  {
    assert SetOrDrop(sh.cluster, q, EntryAt(sh'.cluster, q)) == sh'.cluster by {
      assert forall p :: p in sh'.cluster && p != q ==> p in sh'.cluster.Keys - {q};
      assert forall p :: p in sh.cluster && p != q ==> p in sh.cluster.Keys - {q};
    }
    assert SetOrDrop(sh.deny, q, EntryAt(sh'.deny, q)) == sh'.deny by {
      assert forall p :: p in sh.deny && p != q ==> p in sh.deny.Keys - {q};
    }
  }

  lemma {:induction false} TurnProjects(sys: Sys, id: nat, j: nat, out: Outcome)
    requires Alone(sys, id)
    ensures var ev, sc := Turn(j, out), sys.scalers[id];
            Play(World(sys.sh, sc), MovesOf(sys, ev, id)) == World(After(sys, ev).sh, After(sys, ev).scalers[id]) &&
            OthersKeepOff(KeyOf(sc.item), MovesOf(sys, ev, id))
  {
    hide Exec, EnvStep, Play, SameButAt, OwnItems, WellKeyed;
    var sc := sys.scalers[id];
    if j == id {
      PlayOne(World(sys.sh, sc), Go(out));
    } else if Active(sys.scalers, j) {
      var q, sh' := KeyOf(sys.scalers[j].item), Exec(sys.sh, sys.scalers[j], out).0;
      OnlyOwnKey(sys.sh, sys.scalers[j], q, out);
      ForeignIs(sys.sh, sh', q);
      PlayOne(World(sys.sh, sc), Env(Foreign(q, EntryAt(sh'.cluster, q), EntryAt(sh'.deny, q))));
    } else {
      FinishedStays(sys, j, out);
      NoMoves(World(sys.sh, sc));
    }
  }

  lemma {:induction false} ReconcileProjects(sys: Sys, id: nat, ev: Event)
    requires Alone(sys, id) && Possible(ev) && !Doubles(sys, ev, KeyOf(sys.scalers[id].item))
    requires ev.ReconcileNs? || ev.ReconcileItem?
    ensures var sc := sys.scalers[id];
            id in After(sys, ev).scalers &&
            Play(World(sys.sh, sc), MovesOf(sys, ev, id)) == World(After(sys, ev).sh, After(sys, ev).scalers[id]) &&
            OthersKeepOff(KeyOf(sc.item), MovesOf(sys, ev, id))
  {
    hide After, AllOwn, Doubles, EnvStep, WellKeyed, Play, SameButAt;
    var sc := sys.scalers[id];
    var k, q, sh' := KeyOf(sc.item), KeyOf(ev.item), After(sys, ev).sh;
    ScalerStays(sys, ev, id);
    if sh' == sys.sh {
      NoMoves(World(sys.sh, sc));
    } else if q == k {
      OwnReconcile(sys, ev, k);
      PlayOne(World(sys.sh, sc), Env(Retarget(k, ev.item.desired)));
    } else {
      ReconcileAt(sys, ev);
      ForeignIs(sys.sh, sh', q);
      PlayOne(World(sys.sh, sc), Env(Foreign(q, EntryAt(sh'.cluster, q), EntryAt(sh'.deny, q))));
    }
  }

  lemma {:induction false} EventProjects(sys: Sys, id: nat, ev: Event)
    requires Alone(sys, id) && Possible(ev) && !Doubles(sys, ev, KeyOf(sys.scalers[id].item))
    ensures id in After(sys, ev).scalers
    ensures var sc := sys.scalers[id];
            Play(World(sys.sh, sc), MovesOf(sys, ev, id)) == World(After(sys, ev).sh, After(sys, ev).scalers[id]) &&
            OthersKeepOff(KeyOf(sc.item), MovesOf(sys, ev, id))
  {
    hide Exec, EnvStep, AllOwn, WellKeyed, Doubles, Play;
    match ev
    case Turn(j, out) => TurnProjects(sys, id, j, out);
    case Outside(e) => PlayOne(World(sys.sh, sys.scalers[id]), Env(e));
    case _ => ReconcileProjects(sys, id, ev);
  }

  /** While scaler id is at work, nothing starts a second one on its key k. What happens at other keys is of no account,
      nor is a deletion of its own object. */
  ghost predicate Orderly(sys: Sys, evs: seq<Event>, id: nat, k: Key) {
    forall i :: 0 <= i < |evs| ==>
      Possible(evs[i]) && Active(Run(sys, evs[..i]).scalers, id) && !Doubles(Run(sys, evs[..i]), evs[i], k)
  }

  lemma {:induction false} OrderlyBefore(sys: Sys, evs: seq<Event>, id: nat, k: Key)
    requires Orderly(sys, evs, id, k) && evs != []
    ensures var before, ev := evs[..|evs| - 1], evs[|evs| - 1];
            Orderly(sys, before, id, k) && Possible(ev) && Active(Run(sys, before).scalers, id) &&
            !Doubles(Run(sys, before), ev, k)
  {
    hide Run, Possible, Doubles, Active;
    var before := evs[..|evs| - 1];
    assert forall i :: 0 <= i < |before| ==> before[..i] == evs[..i] && before[i] == evs[i];
  }

  /** One more event: the run of scaler id goes on by the moves that event is to it. */
  lemma {:induction false} RunGoesOn(w: World, ms: seq<Move>, mid: Sys, id: nat, ev: Event)
    requires Alone(mid, id) && Possible(ev) && !Doubles(mid, ev, KeyOf(w.sc.item))
    requires OthersKeepOff(KeyOf(w.sc.item), ms) && Play(w, ms) == World(mid.sh, mid.scalers[id])
    ensures id in After(mid, ev).scalers && (Active(After(mid, ev).scalers, id) ==> Alone(After(mid, ev), id))
    ensures var more := MovesOf(mid, ev, id);
            OthersKeepOff(KeyOf(w.sc.item), ms + more) &&
            Play(w, ms + more) == World(After(mid, ev).sh, After(mid, ev).scalers[id])
  {
    hide AllOwn, WellKeyed, After, Next, Doubles, MovesOf, Play, Possible;
    SameItem(w, ms);
    EventProjects(mid, id, ev);
    if Active(After(mid, ev).scalers, id) { AloneIff(mid, id, ev); }
    FewMoves(mid, ev, id);
    PlayAppend(w, ms, MovesOf(mid, ev, id));
  }

  lemma {:induction false} FewMoves(sys: Sys, ev: Event, id: nat)
    requires id in sys.scalers
    ensures |MovesOf(sys, ev, id)| <= 1
  {
    hide After;
  }

  lemma {:induction false} PlayAppend(w: World, a: seq<Move>, b: seq<Move>)
    requires |b| <= 1
    ensures Play(w, a + b) == Play(Play(w, a), b)
  {
    if b == [] {
      assert a + b == a;
    } else {
      assert b == [b[0]];
      PlaySnoc(w, a, b[0]);
      PlayOne(Play(w, a), b[0]);
    }
  }

  /** Whatever the other scalers and reconciles do, what scaler id goes through is a run of one scaler in an environment
      that keeps off its key but for redirects: all that holds of every such run holds of every scaler in every
      interleaving in which no second scaler is started on its key. */
  lemma {:induction false} InterleavingIsARun(sys: Sys, evs: seq<Event>, id: nat)
    requires Alone(sys, id) && Orderly(sys, evs, id, KeyOf(sys.scalers[id].item))
    ensures id in Run(sys, evs).scalers && (Active(Run(sys, evs).scalers, id) ==> Alone(Run(sys, evs), id))
    ensures exists ms :: OthersKeepOff(KeyOf(sys.scalers[id].item), ms) &&
              Play(World(sys.sh, sys.scalers[id]), ms) == World(Run(sys, evs).sh, Run(sys, evs).scalers[id])
  {
    hide AllOwn, WellKeyed, After, Next, Doubles, Orderly, MovesOf;
    var w, k := World(sys.sh, sys.scalers[id]), KeyOf(sys.scalers[id].item);
    if evs == [] {
      assert OthersKeepOff(k, []) && Play(w, []) == w;
    } else {
      var before, ev := evs[..|evs| - 1], evs[|evs| - 1];
      OrderlyBefore(sys, evs, id, k);
      InterleavingIsARun(sys, before, id);
      var mid := Run(sys, before);
      var ms :| OthersKeepOff(k, ms) && Play(w, ms) == World(mid.sh, mid.scalers[id]);
      RunGoesOn(w, ms, mid, id, ev);
    }
  }

  lemma {:induction false} StartsAlone(sys: Sys, id: nat, item: ScalingInfo)
    requires WellKeyed(sys.sh.deny) && AllOwn(sys.scalers) && Named(KeyOf(item))
    requires forall j :: Active(sys.scalers, j) ==> KeyOf(sys.scalers[j].item) != KeyOf(item)
    requires item.spec != item.desired || item.failure
    ensures var started := Launch(sys, id, item);
            Alone(started, id) && World(started.sh, started.scalers[id]) == Started(sys.sh, item) &&
            KeyOf(started.scalers[id].item) == KeyOf(item)
  {
    FreshIsOwn(item);
    hide OwnItems, RapidScaling;
  }

  /** One replica at a time holds in the whole system: however the steps of all scalers, the reconciles and the
      environment interleave, a scaler started on a current item, alone on its key, keeps its object between the start
      and the targets it has read, and every write about to happen goes one replica towards the target it read last. */
  lemma {:induction false} StepsByOneAmongOthers(sys: Sys, id: nat, item: ScalingInfo, evs: seq<Event>)
    requires WellKeyed(sys.sh.deny) && AllOwn(sys.scalers) && id !in sys.scalers
    requires forall j :: Active(sys.scalers, j) ==> KeyOf(sys.scalers[j].item) != KeyOf(item)
    requires FreshStart(sys.sh, item) && (item.spec != item.desired || item.failure)
    requires Orderly(Launch(sys, id, item), evs, id, KeyOf(item))
    ensures var now, k := Run(Launch(sys, id, item), evs), KeyOf(item);
            id in now.scalers &&
            var sc := now.scalers[id];
            k in now.sh.cluster ==>
              In(now.sh.cluster[k].spec, sc.lo, sc.hi) &&
              (sc.pc.Write? ==>
                sc.pc.replicas == Toward(now.sh.cluster[k].spec, sc.target) && In(sc.pc.replicas, sc.lo, sc.hi))
  {
    var started, k := Launch(sys, id, item), KeyOf(item);
    StartsAlone(sys, id, item);
    hide Alone, Launch, Started, Fresh, Orderly, Run, Play, FreshStart, OneStep, RapidScaling;
    InterleavingIsARun(started, evs, id);
    var ms :| OthersKeepOff(k, ms) &&
              Play(Started(sys.sh, item), ms) == World(Run(started, evs).sh, Run(started, evs).scalers[id]);
    StepsByOne(sys.sh, item, ms);
  }
}

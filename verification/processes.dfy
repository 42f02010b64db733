/** A reconcile at work among everybody else: the memory it shares with scalers, other reconciles and the environment,
    and the run all of them make together. */
module Processes {
  import opened Items
  import opened DenyList
  import opened Concurrent
  import opened ScalerMachine
  import System

  /** One event of the run: this reconcile's own, or somebody else's. */
  datatype Entry = Own(ev: System.Event) | Other(ev: System.Event)

  function Events(log: seq<Entry>): (r: seq<System.Event>)
    ensures |r| == |log| && forall i :: 0 <= i < |log| ==> r[i] == log[i].ev
  {
    if log == [] then [] else Events(log[..|log| - 1]) + [log[|log| - 1].ev]
  }

  /** The reconcile's own events, in order. */
  function OwnOf(log: seq<Entry>): seq<System.Event> {
    if log == [] then []
    else OwnOf(log[..|log| - 1]) + if log[|log| - 1].Own? then [log[|log| - 1].ev] else []
  }

  lemma {:induction false} LogSnoc(log: seq<Entry>, e: Entry)
    ensures Events(log + [e]) == Events(log) + [e.ev]
    ensures OwnOf(log + [e]) == OwnOf(log) + if e.Own? then [e.ev] else []
  {
    assert (log + [e])[..|log|] == log;
  }

  /** The system after the first q events. */
  ghost function At(start: System.Sys, log: seq<Entry>, q: nat): System.Sys
    requires q <= |log|
  {
    System.Run(start, Events(log[..q]))
  }

  /** A list seen at some moment from the q-th event on. */
  ghost predicate SeenSince(start: System.Sys, log: seq<Entry>, q: nat, m: map<Key, ScalingInfo>) {
    exists i :: q <= i <= |log| && At(start, log, i).sh.deny == m
  }

  lemma {:induction false} StillSeen(
      start: System.Sys, log: seq<Entry>, log': seq<Entry>, q: nat, q': nat, m: map<Key, ScalingInfo>)
    requires SeenSince(start, log, q, m) && log <= log' && q' <= q
    ensures SeenSince(start, log', q', m)
  {
    hide System.Run;
    var i :| q <= i <= |log| && At(start, log, i).sh.deny == m;
    assert log'[..i] == log[..i];
    assert At(start, log', i).sh.deny == m;
  }

  /** A scaler this reconcile starts gets a number of its own. */
  ghost predicate OwnNumbers(start: System.Sys, log: seq<Entry>) {
    forall i :: 0 <= i < |log| && log[i].Own? ==>
      match log[i].ev
      case ReconcileNs(id, _) => id !in At(start, log, i).scalers
      case ReconcileItem(id, _) => id !in At(start, log, i).scalers
      case _ => true
  }

  ghost predicate KeyedMap(m: map<Key, ScalingInfo>) {
    forall k :: k in m ==> KeyOf(m[k]) == k
  }

  /** Whatever happens, the list holds its entries under their own keys. */
  lemma {:induction false} KeyedAfter(sys: System.Sys, ev: System.Event)
    requires KeyedMap(sys.sh.deny) && System.Possible(ev)
    ensures KeyedMap(System.After(sys, ev).sh.deny)
  {
    hide Exec, EnvStep, System.OnReconcileNs, System.OnReconcileItem;
    match ev
    case Turn(id, out) =>
      if id in sys.scalers { KeyedStep(sys.sh, sys.scalers[id], out); }
    case Outside(e) =>
      KeyedOutside(sys.sh, e);
    case _ => KeyedReconcile(sys, ev);
  }

  lemma {:induction false} KeyedOutside(sh: Shared, e: EnvMove)
    requires KeyedMap(sh.deny) && !e.Foreign?
    ensures KeyedMap(EnvStep(sh, e).deny)
  {
    hide OptedIn;
  }

  lemma {:induction false} KeyedReconcile(sys: System.Sys, ev: System.Event)
    requires KeyedMap(sys.sh.deny) && (ev.ReconcileNs? || ev.ReconcileItem?)
    ensures KeyedMap(System.After(sys, ev).sh.deny)
  {
    hide Fresh, RapidScaling;
  }

  lemma {:induction false} KeyedStep(sh: Shared, sc: Scaler, out: Outcome)
    requires KeyedMap(sh.deny)
    ensures KeyedMap(Exec(sh, sc, out).0.deny)
  {
    hide Refresh, Decide, OptedIn, AllowsAutoscaling;
    if sc.pc.Poll? || sc.pc.Attempt? { KeyedRefreshing(sh, sc.pc.item, !out.GetFails?); }
  }

  lemma {:induction false} KeyedRefreshing(sh: Shared, info: ScalingInfo, getOk: bool)
    requires KeyedMap(sh.deny)
    ensures KeyedMap(Refresh(sh, info, getOk).0.deny)
  {
  }

  function NextNumber(next: nat, ev: System.Event): nat {
    match ev
    case ReconcileNs(id, _) => if id < next then next else id + 1
    case ReconcileItem(id, _) => if id < next then next else id + 1
    case _ => next
  }

  lemma {:induction false} NumbersAfter(sys: System.Sys, next: nat, ev: System.Event)
    requires forall id :: id in sys.scalers ==> id < next
    ensures forall id :: id in System.After(sys, ev).scalers ==> id < NextNumber(next, ev)
  {
    hide Exec, EnvStep, Fresh, Started;
  }

  class Process {
    const list: ConcurrentSlice
    var cluster: map<Key, Obj>
    var scalers: map<nat, Scaler>
    var next: nat
    /** What others are still going to do. */
    var others: seq<System.Event>

    // The run so far.
    ghost var start: System.Sys
    ghost var log: seq<Entry>

    /** The system: the cluster, the list and the scalers. */
    function Now(): System.Sys
      requires list.Valid()
      reads this, list, list.backing
    {
      System.Sys(Shared(cluster, list.Entries()), scalers)
    }

    /** The memory is what the run so far has made of it. */
    ghost predicate Valid()
      reads this, list, list.backing
      ensures Valid() ==> list.Sound() && list.Valid()
    {
      list.Sound() && (forall id :: id in scalers ==> id < next) &&
      (forall i :: 0 <= i < |others| ==> System.Possible(others[i])) &&
      Now() == System.Run(start, Events(log)) && OwnNumbers(start, log)
    }

    constructor (list: ConcurrentSlice, cluster: map<Key, Obj>, others: seq<System.Event>)
      requires list.Sound() && forall i :: 0 <= i < |others| ==> System.Possible(others[i])
      ensures Valid() && this.list == list && this.cluster == cluster && this.others == others
      ensures start == Now() && log == [] && scalers == map[]
    {
      this.list, this.cluster, this.others := list, cluster, others;
      scalers, next, log := map[], 0, [];
      start := System.Sys(Shared(cluster, list.Entries()), map[]);
    }

    /** Adds an event to the run once the memory has changed accordingly. */
    ghost method Record(before: System.Sys, e: Entry)
      requires list.Sound() && before == System.Run(start, Events(log)) && OwnNumbers(start, log)
      requires Now() == System.After(before, e.ev)
      requires forall id :: id in scalers ==> id < next
      requires forall i :: 0 <= i < |others| ==> System.Possible(others[i])
      requires e.Own? ==> match e.ev
                          case ReconcileNs(id, _) => id !in before.scalers
                          case ReconcileItem(id, _) => id !in before.scalers
                          case _ => true
      modifies this`log
      ensures Valid() && log == old(log) + [e]
      ensures OwnOf(log) == OwnOf(old(log)) + if e.Own? then [e.ev] else []
    {
      hide System.After, System.Run, ConcurrentSlice.Entries, ConcurrentSlice.Contents, OwnNumbers;
      LogSnoc(log, e);
      System.RunSnoc(start, Events(log), e.ev);
      NumbersSnoc(start, log, e);
      log := log + [e];
    }

    /** Makes the list stand for m; in what order is of no account. */
    method SetList(m: map<Key, ScalingInfo>)
      requires list.Sound() && KeyedMap(m)
      modifies list, list.backing
      ensures list.Sound() && (list.backing == old(list.backing) || fresh(list.backing)) && list.Entries() == m
    {
      list.PurgeList();
      assert list.Entries() == map[];
      hide ConcurrentSlice.Sound, ConcurrentSlice.Contents, ConcurrentSlice.Entries;
      var todo := m.Keys;
      while todo != {}
        invariant list.Sound() && (list.backing == old(list.backing) || fresh(list.backing)) && todo <= m.Keys
        invariant forall k :: k in list.Entries() <==> k in m && k !in todo
        invariant forall k :: k in list.Entries() ==> list.Entries()[k] == m[k]
        decreases |todo|
      {
        var k :| k in todo;
        list.UpdateOrAppend(m[k]);
        todo := todo - {k};
      }
    }

    /** Somebody else's event. */
    method Perform(ev: System.Event)
      requires Valid() && System.Possible(ev)
      modifies this`cluster, this`scalers, this`next, this`log, list, list.backing
      ensures Valid() && (list.backing == old(list.backing) || fresh(list.backing))
      ensures log == old(log) + [Other(ev)] && OwnOf(log) == OwnOf(old(log))
    {
      ghost var before := Now();
      EntriesAreKeyed();
      KeyedAfter(before, ev);
      NumbersAfter(before, next, ev);
      hide System.After, System.Run, OwnNumbers, ConcurrentSlice.Entries, ConcurrentSlice.Contents, UniqueKeys,
          NextNumber;
      var sys := System.After(Now(), ev);
      SetList(sys.sh.deny);
      cluster, scalers, next := sys.sh.cluster, sys.scalers, NextNumber(next, ev);
      Record(before, Other(ev));
    }

    lemma {:induction false} EntriesAreKeyed()
      requires list.Sound()
      ensures KeyedMap(list.Entries())
    {
      hide AsMap;
      forall k | k in list.Entries() ensures KeyOf(list.Entries()[k]) == k { AsMapKeyed(list.Contents(), k); }
    }

    /** Lets the others do something, or nothing. */
    method Elsewhere()
      requires Valid()
      modifies this`cluster, this`scalers, this`next, this`others, this`log, list, list.backing
      ensures Valid() && (list.backing == old(list.backing) || fresh(list.backing))
      ensures old(log) <= log && OwnOf(log) == OwnOf(old(log)) && |others| <= |old(others)|
    {
      hide System.After, System.Run, OwnNumbers, ConcurrentSlice.Entries, ConcurrentSlice.Contents, UniqueKeys, OwnOf;
      var more: bool := *;
      while more && others != []
        invariant Valid() && (list.backing == old(list.backing) || fresh(list.backing))
        invariant old(log) <= log && OwnOf(log) == OwnOf(old(log)) && |others| <= |old(others)|
        decreases |others|
      {
        var ev := others[0];
        others := others[1..];
        Perform(ev);
        more := *;
      }
    }
  }

  lemma {:induction false} NumbersSnoc(start: System.Sys, log: seq<Entry>, e: Entry)
    requires OwnNumbers(start, log)
    requires e.Own? ==> match e.ev
                        case ReconcileNs(id, _) => id !in System.Run(start, Events(log)).scalers
                        case ReconcileItem(id, _) => id !in System.Run(start, Events(log)).scalers
                        case _ => true
    ensures OwnNumbers(start, log + [e])
  {
    hide System.Run;
    var log' := log + [e];
    assert log'[..|log|] == log;
    forall i | 0 <= i < |log| ensures At(start, log', i) == At(start, log, i) { assert log'[..i] == log[..i]; }
  }
}

/** The items of one namespace against the list: which are redirected, and what that makes of the namespace. Others use
    the list between any two looks at it. */
module Judgement {
  import opened Items
  import opened DenyList
  import opened Concurrent
  import opened ScalerMachine
  import System
  import opened Processes

  /** An item that is being scaled to another target is redirected instead of started. */
  predicate Redirected(m: map<Key, ScalingInfo>, item: ScalingInfo) {
    KeyOf(item) in m && Named(KeyOf(item)) && m[KeyOf(item)].desired != item.desired && m[KeyOf(item)].isBeingScaled
  }

  function RedirectOne(m: map<Key, ScalingInfo>, item: ScalingInfo): map<Key, ScalingInfo> {
    if Redirected(m, item) then m[KeyOf(item) := m[KeyOf(item)].(desired := item.desired)] else m
  }

  function RedirectAll(m: map<Key, ScalingInfo>, items: seq<ScalingInfo>): map<Key, ScalingInfo> {
    if items == [] then m else RedirectOne(RedirectAll(m, items[..|items| - 1]), items[|items| - 1])
  }

  /** The lists a judgement sees, at the look-up of each item and when each item is asked for again; and the redirects
      it makes. */
  datatype View = View(
    first: seq<map<Key, ScalingInfo>>, later: seq<map<Key, ScalingInfo>>, redirects: seq<System.Event>)

  /** The list has not been looked at. */
  const UNSEEN := View([], [], [])

  predicate Stays(m: map<Key, ScalingInfo>, item: ScalingInfo) {
    item.spec != item.desired && !Redirected(m, item)
  }

  /** Some item is not where it should be, and not taken care of by a redirect. */
  predicate WantsScaling(first: seq<map<Key, ScalingInfo>>, items: seq<ScalingInfo>)
    requires |first| == |items|
  {
    exists i :: 0 <= i < |items| && Stays(first[i], items[i])
  }

  predicate Busy(m: map<Key, ScalingInfo>, item: ScalingInfo) {
    KeyOf(item) in m && m[KeyOf(item)].isBeingScaled
  }

  predicate AnyBusy(later: seq<map<Key, ScalingInfo>>, items: seq<ScalingInfo>)
    requires |later| == |items|
  {
    exists i :: 0 <= i < |items| && Busy(later[i], items[i])
  }

  function RedirectOf(item: ScalingInfo): System.Event {
    System.Outside(Retarget(KeyOf(item), item.desired))
  }

  /** What a judgement does to the list: a redirect for each item found on its way to another target. */
  function Redirects(first: seq<map<Key, ScalingInfo>>, items: seq<ScalingInfo>): seq<System.Event>
    requires |first| == |items|
  {
    if items == [] then []
    else
      var n := |items| - 1;
      Redirects(first[..n], items[..n]) + if Redirected(first[n], items[n]) then [RedirectOf(items[n])] else []
  }

  ghost predicate AllSeen(start: System.Sys, log: seq<Entry>, q: nat, ms: seq<map<Key, ScalingInfo>>) {
    forall i :: 0 <= i < |ms| ==> SeenSince(start, log, q, ms[i])
  }

  lemma {:induction false} OneMoreSeen(
      start: System.Sys, log: seq<Entry>, log': seq<Entry>, q: nat, ms: seq<map<Key, ScalingInfo>>, q': nat,
          m: map<Key, ScalingInfo>)
    requires AllSeen(start, log, q, ms) && log <= log' && q <= q' && SeenSince(start, log', q', m)
    ensures AllSeen(start, log', q, ms + [m])
  {
    hide SeenSince;
    forall i | 0 <= i < |ms| ensures SeenSince(start, log', q, ms[i]) { StillSeen(start, log, log', q, q, ms[i]); }
    StillSeen(start, log', log', q', q, m);
  }

  lemma {:induction false} OneMoreRedirect(
      first: seq<map<Key, ScalingInfo>>, items: seq<ScalingInfo>, m: map<Key, ScalingInfo>, item: ScalingInfo)
    requires |first| == |items|
    ensures Redirects(first + [m], items + [item]) ==
            Redirects(first, items) + if Redirected(m, item) then [RedirectOf(item)] else []
    ensures WantsScaling(first + [m], items + [item]) <==> WantsScaling(first, items) || Stays(m, item)
  {
    hide Redirected, Stays;
    assert (first + [m])[..|first|] == first && (items + [item])[..|items|] == items;
    var n := |items|;
    assert (first + [m])[n] == m && (items + [item])[n] == item;
    if i :| 0 <= i < n && Stays(first[i], items[i]) {
      assert Stays((first + [m])[i], (items + [item])[i]);
    }
    if i :| 0 <= i < n + 1 && Stays((first + [m])[i], (items + [item])[i]) {
      assert i < n ==> Stays(first[i], items[i]);
    }
  }

  /** Gives the entry of an item a new target. */
  method SetTarget(p: Process, entry: ScalingInfo, item: ScalingInfo)
    requires p.Valid() && Named(KeyOf(item)) && KeyOf(item) in p.list.Entries() &&
             p.list.Entries()[KeyOf(item)] == entry
    requires KeyOf(entry) == KeyOf(item)
    modifies p`log, p.list, p.list.backing
    ensures p.Valid() && (p.list.backing == old(p.list.backing) || fresh(p.list.backing))
    ensures p.log == old(p.log) + [Own(RedirectOf(item))] && OwnOf(p.log) == OwnOf(old(p.log)) + [RedirectOf(item)]
  {
    hide System.Run, OwnOf, OwnNumbers, ConcurrentSlice.Contents, ConcurrentSlice.Entries, UniqueKeys;
    ghost var before := p.Now();
    p.list.SetScalingItemOnList(entry, entry.failure, entry.failureMessage, item.desired);
    assert Marked(entry, entry.failure, entry.failureMessage, item.desired) == entry.(desired := item.desired);
    p.Record(before, Own(RedirectOf(item)));
  }

  /** Intercepts the scaler of an item that is being scaled to another target; one step, after others have had their
      turn. */
  method RedirectItem(p: Process, item: ScalingInfo) returns (redirected: bool, ghost m: map<Key, ScalingInfo>)
    requires p.Valid()
    modifies p`cluster, p`scalers, p`next, p`others, p`log, p.list, p.list.backing
    ensures p.Valid() && (p.list.backing == old(p.list.backing) || fresh(p.list.backing)) && old(p.log) <= p.log
    ensures redirected <==> KeyOf(item) in m && Named(KeyOf(item)) && m[KeyOf(item)].isBeingScaled &&
                            m[KeyOf(item)].desired != item.desired
    ensures redirected <==> Redirected(m, item)
    ensures SeenSince(p.start, p.log, |old(p.log)|, m)
    ensures OwnOf(p.log) == OwnOf(old(p.log)) + if redirected then [RedirectOf(item)] else []
  {
    hide System.Run, OwnOf, OwnNumbers, ConcurrentSlice.Contents, ConcurrentSlice.Entries, UniqueKeys, SeenSince,
        RedirectOf;
    p.Elsewhere();
    p.EntriesAreKeyed();
    m := p.list.Entries();
    ghost var log := p.log;
    SeenNow(p.start, log, |old(p.log)|);
    var itemFromList, found := p.list.GetDeploymentInfoFromList(item);
    redirected := false;
    if found && itemFromList.desired != item.desired {
      redirected := p.list.IsBeingScaled(itemFromList);
      if redirected { SetTarget(p, itemFromList, item); }
    }
    StillSeen(p.start, log, p.log, |old(p.log)|, |old(p.log)|, m);
  }

  lemma {:induction false} SeenNow(start: System.Sys, log: seq<Entry>, q: nat)
    requires q <= |log|
    ensures SeenSince(start, log, q, System.Run(start, Events(log)).sh.deny)
  {
    hide System.Run;
    assert log[..|log|] == log;
    assert At(start, log, |log|).sh.deny == System.Run(start, Events(log)).sh.deny;
  }

  /** Asks for the items one by one, until one is being scaled. */
  method IsAnyBeingScaled(p: Process, items: seq<ScalingInfo>)
    returns (any: bool, ghost later: seq<map<Key, ScalingInfo>>)
    requires p.Valid()
    modifies p`cluster, p`scalers, p`next, p`others, p`log, p.list, p.list.backing
    ensures p.Valid() && (p.list.backing == old(p.list.backing) || fresh(p.list.backing)) && old(p.log) <= p.log
    ensures |later| == |items| && (any <==> AnyBusy(later, items))
    ensures AllSeen(p.start, p.log, |old(p.log)|, later) && OwnOf(p.log) == OwnOf(old(p.log))
  {
    hide System.Run, OwnOf, OwnNumbers, ConcurrentSlice.Contents, ConcurrentSlice.Entries, UniqueKeys, SeenSince, Busy;
    later, any := [], false;
    for i := 0 to |items|
      invariant p.Valid() && (p.list.backing == old(p.list.backing) || fresh(p.list.backing)) && old(p.log) <= p.log
      invariant |later| == i && AllSeen(p.start, p.log, |old(p.log)|, later) && OwnOf(p.log) == OwnOf(old(p.log))
      invariant any <==> exists j :: 0 <= j < i && Busy(later[j], items[j])
    {
      ghost var log := p.log;
      if !any {
        p.Elsewhere();
        any := p.list.IsBeingScaled(items[i]);
        BusyIs(p.list.Entries(), items[i]);
        SeenNow(p.start, p.log, |old(p.log)|);
        OneMoreSeen(p.start, log, p.log, |old(p.log)|, later, |old(p.log)|, p.list.Entries());
        later := later + [p.list.Entries()];
      } else {
        SeenNow(p.start, p.log, |old(p.log)|);
        OneMoreSeen(p.start, log, p.log, |old(p.log)|, later, |old(p.log)|, p.list.Entries());
        later := later + [p.list.Entries()];
      }
    }
  }

  lemma {:induction false} BusyIs(m: map<Key, ScalingInfo>, item: ScalingInfo)
    ensures Busy(m, item) <==> KeyOf(item) in m && m[KeyOf(item)].isBeingScaled
  {
  }

  /** What a judgement says, and what it rests on. */
  ghost predicate Judges(v: View, items: seq<ScalingInfo>, wants: bool, busy: bool) {
    |v.first| == |v.later| == |items| && (wants <==> WantsScaling(v.first, items)) &&
    (busy <==> AnyBusy(v.later, items)) && v.redirects == Redirects(v.first, items)
  }

  /** What is judged wants scaling if some item was off its target and, when it was looked up, not being scaled to
      another one; and it is busy if some item was being scaled when it was asked for. */
  lemma {:induction false} JudgesMeans(v: View, items: seq<ScalingInfo>, wants: bool, busy: bool)
    requires Judges(v, items, wants, busy)
    ensures |v.first| == |v.later| == |items|
    ensures wants <==> exists i :: 0 <= i < |items| && items[i].spec != items[i].desired &&
                         var k := KeyOf(items[i]);
                         !(Named(k) && k in v.first[i] && v.first[i][k].isBeingScaled &&
                           v.first[i][k].desired != items[i].desired)
    ensures busy <==> exists i :: 0 <= i < |items| &&
                        KeyOf(items[i]) in v.later[i] && v.later[i][KeyOf(items[i])].isBeingScaled
  {
    hide Redirects;
  }

  method JudgeNamespace(p: Process, items: seq<ScalingInfo>) returns (wants: bool, busy: bool, ghost v: View)
    requires p.Valid()
    modifies p`cluster, p`scalers, p`next, p`others, p`log, p.list, p.list.backing
    ensures p.Valid() && (p.list.backing == old(p.list.backing) || fresh(p.list.backing)) && old(p.log) <= p.log
    ensures Judges(v, items, wants, busy)
    ensures AllSeen(p.start, p.log, |old(p.log)|, v.first) && AllSeen(p.start, p.log, |old(p.log)|, v.later)
    ensures OwnOf(p.log) == OwnOf(old(p.log)) + v.redirects
  {
    hide System.Run, OwnOf, OwnNumbers, ConcurrentSlice.Contents, ConcurrentSlice.Entries, UniqueKeys, SeenSince,
      Redirected, WantsScaling, AnyBusy, Redirects, RedirectOf;
    wants := false;
    ghost var first := [];
    NothingJudged();
    for i := 0 to |items|
      invariant p.Valid() && (p.list.backing == old(p.list.backing) || fresh(p.list.backing)) && old(p.log) <= p.log
      invariant |first| == i && AllSeen(p.start, p.log, |old(p.log)|, first)
      invariant OwnOf(p.log) == OwnOf(old(p.log)) + Redirects(first, items[..i])
      invariant wants <==> WantsScaling(first, items[..i])
    {
      assert items[..i + 1] == items[..i] + [items[i]];
      ghost var log := p.log;
      var redirected;
      ghost var m;
      redirected, m := RedirectItem(p, items[i]);
      OneMoreRedirect(first, items[..i], m, items[i]);
      OneMoreSeen(p.start, log, p.log, |old(p.log)|, first, |log|, m);
      first := first + [m];
      if !redirected && items[i].spec != items[i].desired { wants := true; }
    }
    assert items[..|items|] == items;
    ghost var later, log := [], p.log;
    busy, later := IsAnyBeingScaled(p, items);
    SeenEarlier(p.start, log, p.log, |old(p.log)|, first, later);
    v := View(first, later, Redirects(first, items));
  }

  lemma {:induction false} NothingJudged()
    ensures Redirects([], []) == [] && !WantsScaling([], [])
  {
  }

  lemma {:induction false} SeenEarlier(
      start: System.Sys, log: seq<Entry>, log': seq<Entry>, q: nat, first: seq<map<Key, ScalingInfo>>,
      later: seq<map<Key, ScalingInfo>>)
    requires AllSeen(start, log, q, first) && AllSeen(start, log', |log|, later) && log <= log' && q <= |log|
    ensures AllSeen(start, log', q, first) && AllSeen(start, log', q, later)
  {
    hide SeenSince;
    forall i | 0 <= i < |first| ensures SeenSince(start, log', q, first[i]) {
      StillSeen(start, log, log', q, q, first[i]);
    }
    forall i | 0 <= i < |later| ensures SeenSince(start, log', q, later[i]) {
      StillSeen(start, log', log', |log|, q, later[i]);
    }
  }

  // ----- with nobody else about

  ghost predicate SameAt(m: map<Key, ScalingInfo>, m': map<Key, ScalingInfo>, k: Key) {
    (k in m <==> k in m') && (k in m ==> m[k] == m'[k])
  }

  /** Redirects change targets only, and only at the keys of the items. */
  lemma {:induction false} RedirectsRetarget(m: map<Key, ScalingInfo>, items: seq<ScalingInfo>, k: Key)
    ensures var m' := RedirectAll(m, items);
            (k in m' <==> k in m) && (k in m ==> m'[k] == m[k].(desired := m'[k].desired)) &&
            (!HasKey(items, k) ==> SameAt(m, m', k))
  {
    if items != [] {
      RedirectsRetarget(m, items[..|items| - 1], k);
      HasKeySplit(items, k);
      hide HasKey;
    }
  }

  /** A redirect is the move of the environment that scalers are prepared for. */
  lemma {:induction false} RedirectIsRetarget(sh: Shared, item: ScalingInfo)
    requires Redirected(sh.deny, item)
    ensures sh.(deny := RedirectOne(sh.deny, item)) == EnvStep(sh, Retarget(KeyOf(item), item.desired))
  {
  }

  /** Of items with keys of their own, each that is being scaled to another target gets the new one; no other entry
      changes. */
  lemma {:induction false} RedirectsAreExact(m: map<Key, ScalingInfo>, items: seq<ScalingInfo>, i: nat)
    requires UniqueKeys(items) && i < |items|
    ensures var k, m' := KeyOf(items[i]), RedirectAll(m, items);
            if k in m && Named(k) && m[k].isBeingScaled && m[k].desired != items[i].desired
            then k in m' && m'[k] == m[k].(desired := items[i].desired) else SameAt(m, m', k)
    decreases |items|
  {
    var n := |items| - 1;
    var before := items[..n];
    RedirectsRetarget(m, before, KeyOf(items[i]));
    if i < n {
      RedirectsAreExact(m, before, i);
      assert KeyOf(items[i]) != KeyOf(items[n]);
    } else {
      LastKey(items);
    }
  }

  /** What the look-ups of a judgement see when nobody else is about. */
  function QuietFirst(m: map<Key, ScalingInfo>, items: seq<ScalingInfo>): (r: seq<map<Key, ScalingInfo>>)
    ensures |r| == |items| && forall i :: 0 <= i < |items| ==> r[i] == RedirectAll(m, items[..i])
  {
    seq(|items|, i requires 0 <= i < |items| => RedirectAll(m, items[..i]))
  }

  /** Then its redirects leave the list as redirecting one item after the other does. */
  lemma {:induction false} QuietRun(sys: System.Sys, items: seq<ScalingInfo>)
    ensures System.Run(sys, Redirects(QuietFirst(sys.sh.deny, items), items)) ==
            sys.(sh := sys.sh.(deny := RedirectAll(sys.sh.deny, items)))
  {
    hide Redirected;
    var m := sys.sh.deny;
    if items != [] {
      var n := |items| - 1;
      var before := items[..n];
      QuietRun(sys, before);
      forall i | 0 <= i < n ensures QuietFirst(m, items)[i] == QuietFirst(m, before)[i] {
        assert items[..i] == before[..i];
      }
      assert QuietFirst(m, items)[..n] == QuietFirst(m, before);
      assert items[..n] == before;
      QuietStep(sys, Redirects(QuietFirst(m, before), before), before, items[n]);
    }
  }

  lemma {:induction false} QuietStep(sys: System.Sys, evs: seq<System.Event>, before: seq<ScalingInfo>,
      item: ScalingInfo)
    requires System.Run(sys, evs) == sys.(sh := sys.sh.(deny := RedirectAll(sys.sh.deny, before)))
    ensures var m := RedirectAll(sys.sh.deny, before);
            System.Run(sys, evs + if Redirected(m, item) then [RedirectOf(item)] else []) ==
            sys.(sh := sys.sh.(deny := RedirectOne(m, item)))
  {
    hide RedirectAll;
    var m := RedirectAll(sys.sh.deny, before);
    if Redirected(m, item) {
      System.RunSnoc(sys, evs, RedirectOf(item));
      RedirectIsRetarget(sys.sh.(deny := m), item);
    } else {
      assert evs + [] == evs;
    }
  }

  /** With keys of their own the items do not get in each other's way. */
  lemma {:induction false} WantsWithOwnKeys(m: map<Key, ScalingInfo>, items: seq<ScalingInfo>)
    requires UniqueKeys(items)
    ensures WantsScaling(QuietFirst(m, items), items) <==>
            exists i :: 0 <= i < |items| && items[i].spec != items[i].desired &&
              !(KeyOf(items[i]) in m && Named(KeyOf(items[i])) && m[KeyOf(items[i])].isBeingScaled &&
                m[KeyOf(items[i])].desired != items[i].desired)
  {
    forall i | 0 <= i < |items| ensures Redirected(RedirectAll(m, items[..i]), items[i]) <==> Redirected(m, items[i]) {
      RedirectsRetarget(m, items[..i], KeyOf(items[i]));
    }
    hide Redirected, RedirectAll;
    assert forall i :: 0 <= i < |items| ==> (Stays(QuietFirst(m, items)[i], items[i]) <==> Stays(m, items[i]));
    hide Stays;
  }
}

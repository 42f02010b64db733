/** The replica counts an item's annotations set for its states, and the target they give it. */
module Targets {
  import opened Items
  import opened Search
  import opened States

  const PREFIX := "scaler/state-"
  const SUFFIX := "-replicas"

  datatype StateReplica = StateReplica(name: string, replicas: int)

  /** strconv.Atoi: which texts are numbers is left open. */
  type Atoi = string -> Option<int>

  predicate StateKey(key: string) {
    PREFIX <= key
  }

  function StateKeys(annotations: map<string, string>): set<string> {
    set key | key in annotations && StateKey(key)
  }

  /** Long enough to be cut; the code panics on a shorter state key. */
  predicate Cuttable(annotations: map<string, string>) {
    forall key :: key in annotations && StateKey(key) ==> |PREFIX| + |SUFFIX| <= |key|
  }

  predicate WellFormed(annotations: map<string, string>) {
    forall key :: key in annotations && StateKey(key) ==>
      |PREFIX| + |SUFFIX| <= |key| && key[|key| - |SUFFIX|..] == SUFFIX
  }

  function StateOf(key: string): string
    requires |PREFIX| + |SUFFIX| <= |key|
  {
    key[|PREFIX|..|key| - |SUFFIX|]
  }

  predicate AllParse(annotations: map<string, string>, atoi: Atoi) {
    forall key :: key in annotations && StateKey(key) ==> atoi(annotations[key]).Some?
  }

  function ReplicaOf(key: string, annotations: map<string, string>, atoi: Atoi): StateReplica
    requires Cuttable(annotations) && key in annotations && StateKey(key) && atoi(annotations[key]).Some?
  {
    StateReplica(StateOf(key), Int32(atoi(annotations[key]).value))
  }

  /** An order in which the state keys can come. */
  ghost predicate Enumerates(order: seq<string>, keys: set<string>) {
    (forall i :: 0 <= i < |order| ==> order[i] in keys) &&
    (forall i, j :: 0 <= i < j < |order| ==> order[i] != order[j]) &&
    (forall key :: key in keys ==> key in order)
  }

  /** Readable so far: cut and parsed. */
  ghost predicate Readable(order: seq<string>, annotations: map<string, string>, atoi: Atoi) {
    Cuttable(annotations) &&
    forall i :: 0 <= i < |order| ==> order[i] in annotations && StateKey(order[i]) && atoi(annotations[order[i]]).Some?
  }

  /** What was added for the keys in their order. */
  ghost predicate Lists(states: seq<StateReplica>, order: seq<string>, annotations: map<string, string>, atoi: Atoi)
    requires Readable(order, annotations, atoi)
  {
    |states| == |order| && forall i :: 0 <= i < |order| ==> states[i] == ReplicaOf(order[i], annotations, atoi)
  }

  function ReplicaName(s: StateReplica): string {
    s.name
  }

  /** The first state replica of the name. */
  function Find(states: seq<StateReplica>, name: string): Option<StateReplica> {
    First(states, ReplicaName, name)
  }

  class StateReplicas {
    var states: seq<StateReplica>

    constructor ()
      ensures states == []
    {
      states := [];
    }

    method Add(replica: StateReplica)
      modifies this
      ensures states == old(states) + [replica]
    {
      states := states + [replica];
    }

    method GetState(name: string) returns (result: Option<StateReplica>)
      ensures result == Find(states, name)
    {
      for i := 0 to |states|
        invariant Find(states[..i], name).None?
      {
        assert states[..i + 1][..i] == states[..i];
        if states[i].name == name {
          FirstEarly(states, i + 1, ReplicaName, name);
          return Some(states[i]);
        }
      }
      assert states[..|states|] == states;
      return None;
    }
  }

  method FilterByKeyPrefix(prefix: string, annotations: map<string, string>) returns (matches: map<string, string>)
    ensures forall key :: key in matches <==> key in annotations && prefix <= key
    ensures forall key :: key in matches ==> matches[key] == annotations[key]
  {
    matches := map[];
    var todo := annotations.Keys;
    while todo != {}
      invariant todo <= annotations.Keys
      invariant forall key :: key in matches <==> key in annotations && prefix <= key && key !in todo
      invariant forall key :: key in matches ==> matches[key] == annotations[key]
      decreases |todo|
    {
      var annotation :| annotation in todo;
      if prefix <= annotation { matches := matches[annotation := annotations[annotation]]; }
      todo := todo - {annotation};
    }
  }

  /** How far the loop over the state keys is. */
  ghost predicate Listing(
      states: seq<StateReplica>, order: seq<string>, todo: set<string>, annotations: map<string, string>, atoi: Atoi)
  {
    Cuttable(annotations) && Readable(order, annotations, atoi) && Lists(states, order, annotations, atoi) &&
    (forall i, j :: 0 <= i < j < |order| ==> order[i] != order[j]) &&
    forall key :: key in order <==> key in annotations && StateKey(key) && key !in todo
  }

  lemma {:induction false} ListingBegins(annotations: map<string, string>, atoi: Atoi)
    requires Cuttable(annotations)
    ensures Listing([], [], StateKeys(annotations), annotations, atoi)
  {
  }

  lemma {:induction false} ListingGoesOn(
      states: seq<StateReplica>, order: seq<string>, todo: set<string>, key: string, annotations: map<string, string>,
          atoi: Atoi)
    requires Listing(states, order, todo, annotations, atoi) && key in todo && key in annotations && StateKey(key)
    requires atoi(annotations[key]).Some?
    ensures Listing(states + [ReplicaOf(key, annotations, atoi)], order + [key], todo - {key}, annotations, atoi)
  {
    hide ReplicaOf, Cuttable, StateKey;
  }

  lemma {:induction false} ListingEnds(states: seq<StateReplica>, order: seq<string>, annotations: map<string, string>,
      atoi: Atoi)
    requires Listing(states, order, {}, annotations, atoi)
    ensures AllParse(annotations, atoi) && Enumerates(order, StateKeys(annotations)) &&
            Readable(order, annotations, atoi)
    ensures Lists(states, order, annotations, atoi)
  {
    hide ReplicaOf, Cuttable, StateKey;
    assert forall i :: 0 <= i < |order| ==> order[i] in order;
    assert forall key :: key in annotations && StateKey(key) ==> key in order;
  }

  /** The keys come in any order; the first count that is not a number ends it. */
  method NewStateReplicasFromAnnotations(annotations: map<string, string>, atoi: Atoi)
    returns (stateReplicas: StateReplicas, ok: bool, ghost order: seq<string>)
    requires Cuttable(annotations)
    ensures fresh(stateReplicas)
    ensures ok <==> AllParse(annotations, atoi)
    ensures ok ==> Enumerates(order, StateKeys(annotations)) && Readable(order, annotations, atoi) &&
                   Lists(stateReplicas.states, order, annotations, atoi)
  {
    hide Readable, Lists, Listing, Enumerates, Int32;
    stateReplicas := new StateReplicas();
    order := [];
    var states := FilterByKeyPrefix(PREFIX, annotations);
    assert states.Keys == StateKeys(annotations);
    ListingBegins(annotations, atoi);
    var todo := states.Keys;
    while todo != {}
      invariant todo <= states.Keys && fresh(stateReplicas)
      invariant Listing(stateReplicas.states, order, todo, annotations, atoi)
      decreases |todo|
    {
      var key :| key in todo;
      assert key in StateKeys(annotations);
      var stateName := key[|PREFIX|..|key| - |SUFFIX|];
      var replicas := atoi(states[key]);
      if replicas.None? { return stateReplicas, false, order; }
      ListingGoesOn(stateReplicas.states, order, todo, key, annotations, atoi);
      stateReplicas.Add(StateReplica(stateName, Int32(replicas.value)));
      order := order + [key];
      todo := todo - {key};
    }
    ListingEnds(stateReplicas.states, order, annotations, atoi);
    return stateReplicas, true, order;
  }

  // ----- which counts can come out

  /** The annotation at key sets state `name` to n replicas. */
  ghost predicate Sets(key: string, annotations: map<string, string>, atoi: Atoi, name: string, n: int)
    requires Cuttable(annotations)
  {
    key in annotations && StateKey(key) && StateOf(key) == name && atoi(annotations[key]).Some? &&
    n == Int32(atoi(annotations[key]).value)
  }

  /** What some order of the keys builds. */
  ghost predicate Built(states: seq<StateReplica>, annotations: map<string, string>, atoi: Atoi) {
    exists order :: Enumerates(order, StateKeys(annotations)) && Readable(order, annotations, atoi) &&
                    Lists(states, order, annotations, atoi)
  }

  function CountOf(found: Option<StateReplica>): Option<int> {
    if found.Some? then Some(found.value.replicas) else None
  }

  /** Some order of the keys ends with r as the count for state `name`; None when there is no count or no list. */
  ghost predicate Possible(annotations: map<string, string>, atoi: Atoi, name: string, r: Option<int>) {
    if AllParse(annotations, atoi)
    then exists states :: Built(states, annotations, atoi) && CountOf(Find(states, name)) == r
    else r.None?
  }

  lemma {:induction false} EnumerationExists(keys: set<string>)
    ensures exists order :: Enumerates(order, keys)
    decreases |keys|
  {
    if keys == {} {
      assert Enumerates([], keys);
    } else {
      var key :| key in keys;
      EnumerationExists(keys - {key});
      var rest :| Enumerates(rest, keys - {key});
      PutFirst(rest, keys, key);
    }
  }

  lemma {:induction false} PutFirst(rest: seq<string>, keys: set<string>, key: string)
    requires key in keys && Enumerates(rest, keys - {key})
    ensures Enumerates([key] + rest, keys)
  {
    var order := [key] + rest;
    assert forall k :: k in keys ==> k == key || k in rest;
  }

  lemma {:induction false} EnumerationSize(order: seq<string>, keys: set<string>)
    requires Enumerates(order, keys)
    ensures |order| == |keys|
    decreases |order|
  {
    if order == [] {
      assert keys == {};
    } else {
      var n := |order| - 1;
      assert Enumerates(order[..n], keys - {order[n]}) by {
        assert order == order[..n] + [order[n]];
      }
      EnumerationSize(order[..n], keys - {order[n]});
    }
  }

  lemma {:induction false} ListExists(order: seq<string>, annotations: map<string, string>, atoi: Atoi)
    returns (states: seq<StateReplica>)
    requires Cuttable(annotations) && AllParse(annotations, atoi) && Enumerates(order, StateKeys(annotations))
    ensures Readable(order, annotations, atoi) && Lists(states, order, annotations, atoi) &&
            Built(states, annotations, atoi)
  {
    assert forall i :: 0 <= i < |order| ==> order[i] in StateKeys(annotations);
    states := seq(|order|, i requires 0 <= i < |order| => ReplicaOf(order[i], annotations, atoi));
  }

  /** A count found is one an annotation sets; if none is found, no annotation is for the state. */
  lemma {:induction false} FoundIsSet(states: seq<StateReplica>, annotations: map<string, string>, atoi: Atoi,
      name: string)
    requires Cuttable(annotations) && Built(states, annotations, atoi)
    ensures match CountOf(Find(states, name))
            case Some(n) => exists key :: Sets(key, annotations, atoi, name, n)
            case None => forall key, n :: !Sets(key, annotations, atoi, name, n)
  {
    var order :| Enumerates(order, StateKeys(annotations)) && Readable(order, annotations, atoi) &&
                 Lists(states, order, annotations, atoi);
    FirstIs(states, ReplicaName, name);
    match Find(states, name)
    case Some(s) =>
      var i :| IsFirst(states, ReplicaName, i, s);
      assert Sets(order[i], annotations, atoi, name, s.replicas);
    case None =>
      forall key | key in annotations && StateKey(key) ensures StateOf(key) != name {
        assert key in StateKeys(annotations);
        var i :| 0 <= i < |order| && order[i] == key;
        assert states[i].name != name;
      }
  }

  lemma {:induction false} FoundFirst(states: seq<StateReplica>, name: string)
    requires states != [] && states[0].name == name
    ensures Find(states, name) == Some(states[0])
  {
    assert states[..1][..0] == [] && First(states[..1], ReplicaName, name) == Some(states[0]);
    FirstEarly(states, 1, ReplicaName, name);
  }

  /** Every count an annotation sets is found in some order: the one that has its key first. */
  lemma {:induction false} SetCanBeFound(key: string, annotations: map<string, string>, atoi: Atoi, name: string,
      n: int)
    requires Cuttable(annotations) && AllParse(annotations, atoi) && Sets(key, annotations, atoi, name, n)
    ensures Possible(annotations, atoi, name, Some(n))
  {
    hide Find, Enumerates, Built, AllParse;
    var keys := StateKeys(annotations);
    EnumerationExists(keys - {key});
    var rest :| Enumerates(rest, keys - {key});
    PutFirst(rest, keys, key);
    var states := ListExists([key] + rest, annotations, atoi);
    FoundFirst(states, name);
  }

  /** The possible outcomes, exactly: a count if and only if everything parses and an annotation sets it; none if and
      only if something does not parse or no annotation is for the state. */
  lemma {:induction false} PossibleIff(annotations: map<string, string>, atoi: Atoi, name: string, r: Option<int>)
    requires Cuttable(annotations)
    ensures Possible(annotations, atoi, name, r) <==>
            match r
            case Some(n) => AllParse(annotations, atoi) && exists key :: Sets(key, annotations, atoi, name, n)
            case None => AllParse(annotations, atoi) ==> forall key, n :: !Sets(key, annotations, atoi, name, n)
  {
    if AllParse(annotations, atoi) {
      forall states | Built(states, annotations, atoi) && CountOf(Find(states, name)) == r
        ensures r.Some? ==> exists key :: Sets(key, annotations, atoi, name, r.value)
        ensures r.None? ==> forall key, n :: !Sets(key, annotations, atoi, name, n)
      {
        FoundIsSet(states, annotations, atoi, name);
      }
      if r.Some? {
        forall key | Sets(key, annotations, atoi, name, r.value) ensures Possible(annotations, atoi, name, r) {
          SetCanBeFound(key, annotations, atoi, name, r.value);
        }
      } else if forall key, n :: !Sets(key, annotations, atoi, name, n) {
        EnumerationExists(StateKeys(annotations));
        var order :| Enumerates(order, StateKeys(annotations));
        var states := ListExists(order, annotations, atoi);
        FoundIsSet(states, annotations, atoi, name);
      }
    }
  }

  /** The outcome does not depend on the order of the keys if and only if, where all parse, no two annotations set the
      state to different counts. */
  lemma {:induction false} OrderIrrelevantIff(annotations: map<string, string>, atoi: Atoi, name: string)
    requires Cuttable(annotations)
    ensures (forall r, r' :: Possible(annotations, atoi, name, r) && Possible(annotations, atoi, name, r') ==>
               r == r') <==>
            (AllParse(annotations, atoi) ==>
              forall k, k', n, n' :: Sets(k, annotations, atoi, name, n) && Sets(k', annotations, atoi, name, n') ==>
                n == n')
  {
    forall r ensures Possible(annotations, atoi, name, r) <==>
            match r
            case Some(n) => AllParse(annotations, atoi) && exists key :: Sets(key, annotations, atoi, name, n)
            case None => AllParse(annotations, atoi) ==> forall key, n :: !Sets(key, annotations, atoi, name, n)
    {
      PossibleIff(annotations, atoi, name, r);
    }
    hide Possible, Sets, AllParse, Cuttable;
    forall k, k', n, n' |
      AllParse(annotations, atoi) && Sets(k, annotations, atoi, name, n) && Sets(k', annotations, atoi, name, n')
      ensures Possible(annotations, atoi, name, Some(n)) && Possible(annotations, atoi, name, Some(n'))
    {
    }
  }

  /** Keys that end as they should are told apart by their states: only one annotation can be for a state. */
  lemma {:induction false} WellFormedIsUnique(annotations: map<string, string>, atoi: Atoi, name: string)
    requires WellFormed(annotations)
    ensures forall r, r' :: Possible(annotations, atoi, name, r) && Possible(annotations, atoi, name, r') ==> r == r'
  {
    hide Possible;
    OrderIrrelevantIff(annotations, atoi, name);
    forall k, k', n, n' | Sets(k, annotations, atoi, name, n) && Sets(k', annotations, atoi, name, n') ensures n == n' {
      assert k == PREFIX + StateOf(k) + SUFFIX && k' == PREFIX + StateOf(k') + SUFFIX;
    }
  }

  // ----- target determination

  /** What becomes of an item whose count came out as r. */
  function Determined(item: ScalingInfo, r: Option<int>): ScalingInfo {
    match r
    case None => item
    case Some(n) => item.(desired := if item.failure then item.spec else n)
  }

  /** The items handed on are those with a count they are not at already. */
  predicate ToScale(item: ScalingInfo, r: Option<int>) {
    r.Some? && !item.failure && (item.spec != r.value || item.desired != r.value)
  }

  function Selected(items: seq<ScalingInfo>, rs: seq<Option<int>>): seq<ScalingInfo>
    requires |rs| == |items|
  {
    if items == [] then []
    else
      var n := |items| - 1;
      Selected(items[..n], rs[..n]) + if ToScale(items[n], rs[n]) then [Determined(items[n], rs[n])] else []
  }

  ghost predicate CountsFor(items: seq<ScalingInfo>, atoi: Atoi, rs: seq<Option<int>>) {
    |rs| == |items| && forall i :: 0 <= i < |items| ==> Possible(items[i].annotations, atoi, items[i].state, rs[i])
  }

  /** The count the annotations of one item give its state, in whatever order they come. */
  method CountFor(item: ScalingInfo, atoi: Atoi) returns (r: Option<StateReplica>)
    requires Cuttable(item.annotations)
    ensures Possible(item.annotations, atoi, item.state, CountOf(r)) && (r.Some? ==> r.value.name == item.state)
  {
    var stateReplicas, ok, order := NewStateReplicasFromAnnotations(item.annotations, atoi);
    if !ok { return None; }
    r := stateReplicas.GetState(item.state);
    FirstIs(stateReplicas.states, ReplicaName, item.state);
    assert Built(stateReplicas.states, item.annotations, atoi);
  }

  lemma {:induction false} OneMoreCount(
      items: seq<ScalingInfo>, atoi: Atoi, rs: seq<Option<int>>, item: ScalingInfo, r: Option<int>)
    requires CountsFor(items, atoi, rs) && Possible(item.annotations, atoi, item.state, r)
    ensures CountsFor(items + [item], atoi, rs + [r]) && |rs| == |items|
    ensures Selected(items + [item], rs + [r])
            == Selected(items, rs) + if ToScale(item, r) then [Determined(item, r)] else []
  {
    hide Possible;
    assert (items + [item])[..|items|] == items && (rs + [r])[..|rs|] == rs;
  }

  /** One item of the loop: what it becomes, and whether it is handed on. */
  method DetermineOne(item: ScalingInfo, atoi: Atoi) returns (now: ScalingInfo, selected: bool, r: Option<int>)
    requires Cuttable(item.annotations)
    ensures Possible(item.annotations, atoi, item.state, r)
    ensures now == Determined(item, r) && (selected <==> ToScale(item, r))
  {
    hide Possible, Cuttable;
    now, selected := item, false;
    var stateReplica := CountFor(item, atoi);
    r := CountOf(stateReplica);
    if stateReplica.None? { return; }
    now := now.(state := stateReplica.value.name);
    if now.failure {
      now := now.(desired := now.spec);
    } else if now.spec != stateReplica.value.replicas || now.desired != stateReplica.value.replicas {
      now := now.(desired := stateReplica.value.replicas);
      selected := true;
    }
  }

  /** How far the loop over the items is: the cells, the counts and the selection so far. */
  ghost predicate HalfDetermined(
      given: seq<ScalingInfo>, now: seq<ScalingInfo>, i: nat, atoi: Atoi, rs: seq<Option<int>>,
          selected: seq<ScalingInfo>)
  {
    i == |rs| <= |given| == |now| && CountsFor(given[..i], atoi, rs) && selected == Selected(given[..i], rs) &&
    (forall j :: 0 <= j < i ==> now[j] == Determined(given[j], rs[j])) &&
        forall j :: i <= j < |given| ==> now[j] == given[j]
  }

  lemma {:induction false} OneMoreDetermined(
      given: seq<ScalingInfo>, now: seq<ScalingInfo>, i: nat, atoi: Atoi, rs: seq<Option<int>>,
      selected: seq<ScalingInfo>, r: Option<int>)
    requires HalfDetermined(given, now, i, atoi, rs, selected) && i < |given|
    requires Possible(given[i].annotations, atoi, given[i].state, r)
    ensures HalfDetermined(given, now[i := Determined(given[i], r)], i + 1, atoi, rs + [r],
                           if ToScale(given[i], r) then selected + [Determined(given[i], r)] else selected)
  {
    hide Possible, ToScale, Determined, Selected, CountsFor;
    assert selected + [] == selected;
    assert given[..i + 1] == given[..i] + [given[i]];
    OneMoreCount(given[..i], atoi, rs, given[i], r);
  }

  lemma {:induction false} AllDetermined(
      given: seq<ScalingInfo>, now: seq<ScalingInfo>, atoi: Atoi, rs: seq<Option<int>>, selected: seq<ScalingInfo>)
    requires HalfDetermined(given, now, |given|, atoi, rs, selected)
    ensures CountsFor(given, atoi, rs) && selected == Selected(given, rs)
    ensures forall j :: 0 <= j < |given| ==> now[j] == Determined(given[j], rs[j])
  {
    hide Determined;
    assert given[..|given|] == given;
  }

  /** Items whose counts cannot be read, or have none for their state, are passed over; `TargetsSet` and `HandedOn` say
      what becomes of the others. */
  method DetermineDesiredReplicas(items: array<ScalingInfo>, atoi: Atoi)
    returns (returnList: seq<ScalingInfo>, ghost rs: seq<Option<int>>)
    requires forall i :: 0 <= i < items.Length ==> Cuttable(items[i].annotations)
    modifies items
    ensures CountsFor(old(items[..]), atoi, rs)
    ensures forall i :: 0 <= i < items.Length ==> items[i] == Determined(old(items[i]), rs[i])
    ensures returnList == Selected(old(items[..]), rs)
  {
    ghost var given := items[..];
    hide Possible, Cuttable, ToScale, Determined, Selected, CountsFor, HalfDetermined;
    returnList, rs := [], [];
    NothingDetermined(given, atoi);
    for i := 0 to items.Length
      invariant HalfDetermined(given, items[..], i, atoi, rs, returnList)
      invariant forall j :: i <= j < items.Length ==> items[j] == given[j]
    {
      ghost var before := items[..];
      var now, selected, r := DetermineOne(items[i], atoi);
      OneMoreDetermined(given, before, i, atoi, rs, returnList, r);
      items[i] := now;
      assert items[..] == before[i := now];
      if selected { returnList := returnList + [items[i]]; }
      rs := rs + [r];
    }
    AllDetermined(given, items[..], atoi, rs, returnList);
  }

  lemma {:induction false} NothingDetermined(given: seq<ScalingInfo>, atoi: Atoi)
    ensures HalfDetermined(given, given, 0, atoi, [], [])
  {
    NothingSelected(atoi);
    assert given[..0] == [];
  }

  lemma {:induction false} NothingSelected(atoi: Atoi)
    ensures Selected([], []) == [] && CountsFor([], atoi, [])
  {
  }

  ghost predicate Ascending(from: seq<nat>, bound: nat) {
    (forall j :: 0 <= j < |from| ==> from[j] < bound) && forall j, j' :: 0 <= j < j' < |from| ==> from[j] < from[j']
  }

  ghost predicate ComesFrom(out: ScalingInfo, item: ScalingInfo, r: Option<int>) {
    !item.failure && r.Some? && (item.spec != r.value || item.desired != r.value) && out == item.(desired := r.value)
  }

  /** Where the selected items come from: in order, all of them, and nothing else. */
  ghost predicate Origins(from: seq<nat>, items: seq<ScalingInfo>, rs: seq<Option<int>>, out: seq<ScalingInfo>)
    requires |rs| == |items|
  {
    |from| == |out| && Ascending(from, |items|) &&
    (forall j :: 0 <= j < |from| ==> ComesFrom(out[j], items[from[j]], rs[from[j]])) &&
    (forall i :: 0 <= i < |items| && i !in from ==>
      items[i].failure || rs[i].None? || items[i].spec == items[i].desired == rs[i].value)
  }

  lemma {:induction false} SelectionIsASubsequence(items: seq<ScalingInfo>, rs: seq<Option<int>>)
    requires |rs| == |items|
    ensures exists from :: Origins(from, items, rs, Selected(items, rs))
  {
    hide Determined, ToScale, ComesFrom;
    if items == [] {
      var nowhere: seq<nat> := [];
      assert Origins(nowhere, items, rs, Selected(items, rs));
    } else {
      var n := |items| - 1;
      var out := Selected(items[..n], rs[..n]);
      SelectionIsASubsequence(items[..n], rs[..n]);
      var before :| Origins(before, items[..n], rs[..n], out);
      OneMoreOrigin(before, items, rs, out);
      var next := Selected(items, rs);
      assert exists from :: Origins(from, items, rs, next);
    }
  }

  lemma {:induction false} OneMoreOrigin(before: seq<nat>, items: seq<ScalingInfo>, rs: seq<Option<int>>,
      out: seq<ScalingInfo>)
    requires |rs| == |items| > 0
    requires var n := |items| - 1; Origins(before, items[..n], rs[..n], out)
    ensures var n := |items| - 1;
            var next := out + if ToScale(items[n], rs[n]) then [Determined(items[n], rs[n])] else [];
            exists from :: Origins(from, items, rs, next)
  {
    var n := |items| - 1;
    assert ToScale(items[n], rs[n]) ==> ComesFrom(Determined(items[n], rs[n]), items[n], rs[n]);
    assert !ToScale(items[n], rs[n]) ==>
      items[n].failure || rs[n].None? || items[n].spec == items[n].desired == rs[n].value;
    hide ToScale, Determined, ComesFrom;
    if ToScale(items[n], rs[n]) {
      var last := Determined(items[n], rs[n]);
      var from: seq<nat> := before + [n];
      forall i | 0 <= i < |items| && i !in from
        ensures items[i].failure || rs[i].None? || items[i].spec == items[i].desired == rs[i].value
      {
        assert i != n by { assert from[|before|] == n; }
        assert i !in before by { assert forall j :: 0 <= j < |before| ==> from[j] == before[j]; }
        assert items[..n][i] == items[i] && rs[..n][i] == rs[i];
      }
      assert Origins(from, items, rs, out + [last]);
    } else {
      assert forall i :: 0 <= i < n ==> items[..n][i] == items[i] && rs[..n][i] == rs[i];
      assert Origins(before, items, rs, out + []);
    }
  }

  /** What becomes of every item, told by what the annotations set: an item whose counts all parse and of which one is
      for its state gets it as target, or its own spec when it is failing; any other is left. */
  lemma {:induction false} TargetsSet(items: seq<ScalingInfo>, atoi: Atoi, rs: seq<Option<int>>)
    requires CountsFor(items, atoi, rs) && forall i :: 0 <= i < |items| ==> Cuttable(items[i].annotations)
    ensures forall i :: 0 <= i < |items| ==>
              match rs[i]
              case None =>
                Determined(items[i], rs[i]) == items[i] &&
                (AllParse(items[i].annotations, atoi) ==>
                  forall key, n :: !Sets(key, items[i].annotations, atoi, items[i].state, n))
              case Some(n) =>
                Determined(items[i], rs[i]) == items[i].(desired := if items[i].failure then items[i].spec else n) &&
                AllParse(items[i].annotations, atoi) &&
                exists key :: Sets(key, items[i].annotations, atoi, items[i].state, n)
  {
    forall i | 0 <= i < |items|
      ensures match rs[i]
              case None => AllParse(items[i].annotations, atoi) ==>
                             forall key, n :: !Sets(key, items[i].annotations, atoi, items[i].state, n)
              case Some(n) => AllParse(items[i].annotations, atoi) &&
                              exists key :: Sets(key, items[i].annotations, atoi, items[i].state, n)
    {
      PossibleIff(items[i].annotations, atoi, items[i].state, rs[i]);
    }
  }

  /** What is handed on: exactly the items that have a count and are not failing, and of which spec or target is another
      number, in order and each with its count as target. */
  lemma {:induction false} HandedOn(items: seq<ScalingInfo>, rs: seq<Option<int>>)
    requires |rs| == |items|
    ensures exists from :: Ascending(from, |items|) && |from| == |Selected(items, rs)| &&
              (forall j :: 0 <= j < |from| ==> Selected(items, rs)[j] == Determined(items[from[j]], rs[from[j]])) &&
              forall i :: 0 <= i < |items| ==>
                (i in from <==>
                  rs[i].Some? && !items[i].failure && (items[i].spec != rs[i].value || items[i].desired != rs[i].value))
    ensures forall i :: 0 <= i < |items| && rs[i].Some? && !items[i].failure ==>
              Determined(items[i], rs[i]) == items[i].(desired := rs[i].value)
  {
    hide Selected;
    SelectionIsASubsequence(items, rs);
    var from :| Origins(from, items, rs, Selected(items, rs));
    forall i | 0 <= i < |items| && i in from ensures ComesFrom(Determined(items[i], rs[i]), items[i], rs[i]) {
      var j :| 0 <= j < |from| && from[j] == i;
    }
    assert Ascending(from, |items|);
  }

  /** A key made for a state is a state key of that state, whatever its name. */
  lemma {:induction false} KeyOfState(name: string, annotations: map<string, string>, atoi: Atoi, n: int)
    requires Cuttable(annotations)
    ensures var key := "scaler/state-" + name + "-replicas";
            Sets(key, annotations, atoi, name, n) <==>
              key in annotations && exists m :: atoi(annotations[key]) == Some(m) && n == Int32(m)
  {
    var key := "scaler/state-" + name + "-replicas";
    assert key[..|PREFIX|] == PREFIX;
    assert key[|PREFIX|..|key| - |SUFFIX|] == name;
  }

  /** State resolution and target determination together. The result is an order-preserving selection of the items
      given; each item in it is not failing, and has the state resolution gave it and a target that one of its
      annotations sets for that state; left out are exactly the items without a count, failing, or already there. */
  lemma {:induction false} TargetsComeFromAnnotations(
      items: seq<ScalingInfo>, ns: State, css: seq<ClusterState>, definitions: seq<State>, atoi: Atoi,
      resolved: seq<ScalingInfo>, rs: seq<Option<int>>)
    requires |resolved| == |items| &&
             forall i :: 0 <= i < |items| ==> resolved[i] == Resolved(items[i], ns, css, definitions)
    requires forall i :: 0 <= i < |items| ==> Cuttable(items[i].annotations)
    requires CountsFor(resolved, atoi, rs)
    ensures exists from :: Origins(from, resolved, rs, Selected(resolved, rs))
    ensures forall item :: item in Selected(resolved, rs) ==>
              !item.failure && Cuttable(item.annotations) && AllParse(item.annotations, atoi) &&
              exists key :: Sets(key, item.annotations, atoi, item.state, item.desired)
  {
    SelectionIsASubsequence(resolved, rs);
    var out := Selected(resolved, rs);
    var from :| Origins(from, resolved, rs, out);
    forall i | 0 <= i < |items| ensures resolved[i].annotations == items[i].annotations {
      ResolutionFacts(items[i], ns, css, definitions);
    }
    hide Resolved, Cuttable, AllParse, Sets, Possible, Selected;
    forall item | item in out
      ensures !item.failure && Cuttable(item.annotations) && AllParse(item.annotations, atoi) &&
              exists key :: Sets(key, item.annotations, atoi, item.state, item.desired)
    {
      var j :| 0 <= j < |out| && out[j] == item;
      var origin := resolved[from[j]];
      PossibleIff(origin.annotations, atoi, origin.state, rs[from[j]]);
    }
  }

  /** With well-formed keys two determinations of the same items agree in everything, whatever order the keys come in.
      */
  lemma {:induction false} TargetsAreDetermined(items: seq<ScalingInfo>, atoi: Atoi, rs: seq<Option<int>>,
      rs': seq<Option<int>>)
    requires forall i :: 0 <= i < |items| ==> WellFormed(items[i].annotations)
    requires CountsFor(items, atoi, rs) && CountsFor(items, atoi, rs')
    ensures rs == rs' && Selected(items, rs) == Selected(items, rs')
  {
    hide WellFormed, Possible;
    forall i | 0 <= i < |items| ensures rs[i] == rs'[i] {
      WellFormedIsUnique(items[i].annotations, atoi, items[i].state);
    }
  }
}

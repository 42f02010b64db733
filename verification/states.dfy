/** Which state an item is in: the state of its namespace or that of its scaling class, whichever ranks higher. */
module States {
  import opened Items
  import opened Search

  /** A ClusterScalingState object: the state it puts its scaling class in. */
  datatype ClusterState = ClusterState(state: string, scalingClass: string)

  const DEFAULT_CLASS := "default"

  /** The state that ranks higher; of two with the same number the second, and NO_STATE never. */
  function GetPrioritisedState(a: State, b: State): State {
    if a == NO_STATE then b else if b == NO_STATE then a else if a.priority < b.priority then a else b
  }

  /** At least as high in rank. */
  predicate Outranks(a: State, b: State) {
    b == NO_STATE || (a != NO_STATE && a.priority <= b.priority)
  }

  /** The choice is one of the two that nothing outranks, ties going to the second; and with more than two states to
      choose from it does not matter how they are paired. */
  lemma {:induction false} PriorityPicksTheTop(a: State, b: State, c: State)
    ensures var p := GetPrioritisedState(a, b);
            (p == a || p == b) && Outranks(p, a) && Outranks(p, b) && (Outranks(b, a) ==> p == b)
    ensures GetPrioritisedState(GetPrioritisedState(a, b), c) == GetPrioritisedState(a, GetPrioritisedState(b, c))
  {
  }

  function StateName(s: State): string {
    s.name
  }

  /** The first definition with the name. */
  function Defined(definitions: seq<State>, name: string): Option<State> {
    First(definitions, StateName, name)
  }

  /** Writes the state through to the caller's variable; leaves it as it was when there is none. */
  method FindState(definitions: seq<State>, name: string, state: State) returns (found: bool, result: State)
    ensures found == Defined(definitions, name).Some?
    ensures result == if found then Defined(definitions, name).value else state
  {
    for i := 0 to |definitions|
      invariant Defined(definitions[..i], name).None?
    {
      assert definitions[..i + 1][..i] == definitions[..i];
      if definitions[i].name == name {
        FirstEarly(definitions, i + 1, StateName, name);
        return true, definitions[i];
      }
    }
    assert definitions[..|definitions|] == definitions;
    return false, state;
  }

  function ClassOf(name: string): string {
    if name == "" then DEFAULT_CLASS else name
  }

  function ItemClass(item: ScalingInfo): string {
    ClassOf(if "scaler/scaling-class" in item.labels then item.labels["scaler/scaling-class"] else "")
  }

  datatype Lookup = Found(state: State) | Missing(message: Message)

  /** The first cluster state of the class decides, whether or not its state is defined. */
  function ClassLookup(css: seq<ClusterState>, definitions: seq<State>, itemClass: string): Lookup {
    if css == [] then Missing(ClassUndefined(itemClass))
    else if ClassOf(css[0].scalingClass) == itemClass then
      match Defined(definitions, css[0].state)
      case Some(s) => Found(s)
      case None => Missing(StateUndefined(css[0].state))
    else ClassLookup(css[1..], definitions, itemClass)
  }

  method FindScalingClassOnClusterScalingState(itemClass: string, css: seq<ClusterState>, definitions: seq<State>)
    returns (result: Lookup)
    ensures result == ClassLookup(css, definitions, itemClass)
  {
    for i := 0 to |css|
      invariant ClassLookup(css, definitions, itemClass) == ClassLookup(css[i..], definitions, itemClass)
    {
      if ClassOf(css[i].scalingClass) == itemClass {
        var found, state := FindState(definitions, css[i].state, NO_STATE);
        return if found then Found(state) else Missing(StateUndefined(css[i].state));
      }
    }
    return Missing(ClassUndefined(itemClass));
  }

  /** What state resolution leaves of an item. A class that cannot be looked up marks the item as failing, and a state
      found all the same clears the mark, and any other the item had. */
  function Resolved(item: ScalingInfo, namespaceState: State, css: seq<ClusterState>,
      definitions: seq<State>): ScalingInfo {
    var looked := ClassLookup(css, definitions, ItemClass(item));
    var classed := match looked
                   case Found(s) => item.(classState := s, scalingClass := ItemClass(item))
                   case Missing(message) => item.(failure := true, failureMessage := message);
    var named := classed.(state := GetPrioritisedState(namespaceState, classed.classState).name);
    if named.state != "" && named.failure then named.(failure := false, failureMessage := NoMessage) else named
  }

  method GetAppliedClass(css: seq<ClusterState>, definitions: seq<State>, given: ScalingInfo)
    returns (item: ScalingInfo)
    ensures match ClassLookup(css, definitions, ItemClass(given))
            case Found(s) => item == given.(classState := s, scalingClass := ItemClass(given))
            case Missing(message) => item == given.(failure := true, failureMessage := message)
  {
    item := given;
    var result := FindScalingClassOnClusterScalingState(ItemClass(item), css, definitions);
    match result
    case Missing(message) => item := item.(failure := true, failureMessage := message);
    case Found(state) => item := item.(classState := state, scalingClass := ItemClass(item));
  }

  method GetAppliedStateAndClassOnItem(
      given: ScalingInfo, namespaceState: State, css: seq<ClusterState>, definitions: seq<State>)
    returns (item: ScalingInfo)
    ensures item == Resolved(given, namespaceState, css, definitions)
  {
    item := GetAppliedClass(css, definitions, given);
    item := item.(state := GetPrioritisedState(namespaceState, item.classState).name);
    if item.state != "" && item.failure {
      item := item.(failure := false, failureMessage := NoMessage);
    }
  }

  method GetAppliedStatesOnItems(
      items: array<ScalingInfo>, namespaceState: State, css: seq<ClusterState>, definitions: seq<State>)
    modifies items
    ensures forall i :: 0 <= i < items.Length ==> items[i] == Resolved(old(items[i]), namespaceState, css, definitions)
  {
    hide Resolved;
    for i := 0 to items.Length
      invariant forall j :: 0 <= j < i ==> items[j] == Resolved(old(items[j]), namespaceState, css, definitions)
      invariant forall j :: i <= j < items.Length ==> items[j] == old(items[j])
    {
      items[i] := GetAppliedStateAndClassOnItem(items[i], namespaceState, css, definitions);
    }
  }

  /** A definition found is the first of its name. */
  lemma {:induction false} DefinedIff(definitions: seq<State>, name: string, s: State)
    ensures Defined(definitions, name) == Some(s) <==>
            exists i :: 0 <= i < |definitions| && definitions[i] == s && s.name == name &&
              forall j :: 0 <= j < i ==> definitions[j].name != name
    ensures Defined(definitions, name).None? <==> forall i :: 0 <= i < |definitions| ==> definitions[i].name != name
  {
    FirstIs(definitions, StateName, name);
    match Defined(definitions, name)
    case None =>
    case Some(t) =>
      var n :| IsFirst(definitions, StateName, n, t);
      forall i | 0 <= i < |definitions| && definitions[i] == s && s.name == name &&
                 forall j :: 0 <= j < i ==> definitions[j].name != name
        ensures t == s
      {
        assert StateName(t) == name && StateName(definitions[n]) == name && StateName(definitions[i]) == name;
        assert i == n;
      }
  }

  /** A cluster state without a class is one of the default class. */
  predicate InClass(cs: ClusterState, c: string) {
    if cs.scalingClass == "" then c == "default" else cs.scalingClass == c
  }

  /** The first cluster state of the class. */
  ghost predicate DecidesFor(css: seq<ClusterState>, c: string, i: int) {
    0 <= i < |css| && InClass(css[i], c) && forall j :: 0 <= j < i ==> !InClass(css[j], c)
  }

  lemma {:induction false} DecidesInRest(css: seq<ClusterState>, c: string, i: int)
    requires css != [] && !InClass(css[0], c)
    ensures DecidesFor(css, c, i) <==> DecidesFor(css[1..], c, i - 1)
  {
    var rest := css[1..];
    assert forall j :: 0 <= j < |rest| ==> rest[j] == css[j + 1];
    if DecidesFor(rest, c, i - 1) {
      forall j | 0 <= j < i ensures !InClass(css[j], c) {
        if j > 0 { assert !InClass(rest[j - 1], c); }
      }
    }
    if DecidesFor(css, c, i) {
      forall j | 0 <= j < i - 1 ensures !InClass(rest[j], c) { assert !InClass(css[j + 1], c); }
    }
  }

  lemma {:induction false} OnlyOneDecides(css: seq<ClusterState>, c: string, i: int, j: int)
    requires DecidesFor(css, c, i) && DecidesFor(css, c, j)
    ensures i == j
  {
  }

  /** The first cluster state of the class decides, and no other: with its definition if there is one, with its name in
      the message if not; a class that no cluster state has is what the message says. */
  lemma {:induction false} LookupFindsDefinition(css: seq<ClusterState>, definitions: seq<State>, itemClass: string)
    ensures forall s :: ClassLookup(css, definitions, itemClass) == Found(s) <==>
              exists i :: DecidesFor(css, itemClass, i) && Defined(definitions, css[i].state) == Some(s)
    ensures forall name :: ClassLookup(css, definitions, itemClass) == Missing(StateUndefined(name)) <==>
              exists i :: DecidesFor(css, itemClass, i) && css[i].state == name && Defined(definitions, name).None?
    ensures forall c :: ClassLookup(css, definitions, itemClass) == Missing(ClassUndefined(c)) <==>
              c == itemClass && forall i :: 0 <= i < |css| ==> !InClass(css[i], itemClass)
  {
    hide Defined;
    if css != [] {
      if InClass(css[0], itemClass) {
        assert DecidesFor(css, itemClass, 0);
        forall i | DecidesFor(css, itemClass, i) ensures i == 0 { OnlyOneDecides(css, itemClass, i, 0); }
      } else {
        var rest := css[1..];
        LookupFindsDefinition(rest, definitions, itemClass);
        assert forall i :: 0 <= i < |rest| ==> rest[i] == css[i + 1];
        forall i ensures DecidesFor(css, itemClass, i) <==> DecidesFor(rest, itemClass, i - 1) {
          DecidesInRest(css, itemClass, i);
        }
        hide DecidesFor;
        forall i | DecidesFor(rest, itemClass, i) ensures DecidesFor(css, itemClass, i + 1) {}
      }
    }
  }

  /** After resolution an item is failing if and only if it has no state, and was failing before or has a class that
      cannot be looked up: a failure the cluster reports is forgotten as soon as any state applies. The state is that of
      the namespace or of the class, and the other does not outrank it. Nothing else about the item changes but its
      class. */
  lemma {:induction false} ResolutionFacts(item: ScalingInfo, ns: State, css: seq<ClusterState>,
      definitions: seq<State>)
    ensures var r, looked := Resolved(item, ns, css, definitions), ClassLookup(css, definitions, ItemClass(item));
            (r.failure <==> r.state == "" && (item.failure || looked.Missing?)) &&
            var cs := if looked.Found? then looked.state else item.classState;
            (exists top :: (top == ns || top == cs) && r.state == top.name && Outranks(top, ns) && Outranks(top, cs)) &&
            r == item.(failure := r.failure, failureMessage := r.failureMessage, state := r.state, classState := cs,
                       scalingClass := if looked.Found? then ItemClass(item) else item.scalingClass) &&
            r.failureMessage == (if looked.Missing? && r.failure then looked.message
                                 else if item.failure != r.failure || looked.Missing? then NoMessage
                                 else item.failureMessage)
    ensures ItemClass(item) == if "scaler/scaling-class" in item.labels && item.labels["scaler/scaling-class"] != ""
                               then item.labels["scaler/scaling-class"] else "default"
  {
    hide ClassLookup;
    var looked := ClassLookup(css, definitions, ItemClass(item));
    var cs := if looked.Found? then looked.state else item.classState;
    PriorityPicksTheTop(ns, cs, cs);
    assert Resolved(item, ns, css, definitions).state == GetPrioritisedState(ns, cs).name;
  }
}

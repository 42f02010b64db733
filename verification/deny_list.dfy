/** The deny list as a sequence, the map it stands for, and the proof that the one refines the other. */
module DenyList {
  import opened Items

  predicate HasKey(s: seq<ScalingInfo>, k: Key) {
    exists i :: 0 <= i < |s| && KeyOf(s[i]) == k
  }

  predicate UniqueKeys(s: seq<ScalingInfo>) {
    forall i, j :: 0 <= i < j < |s| ==> KeyOf(s[i]) != KeyOf(s[j])
  }

  /** Every entry with the key of `item` becomes `item`. */
  function Overwrite(s: seq<ScalingInfo>, item: ScalingInfo): (r: seq<ScalingInfo>)
    ensures |r| == |s|
    ensures forall i :: 0 <= i < |s| ==> r[i] == if KeyOf(s[i]) == KeyOf(item) then item else s[i]
  {
    if s == [] then []
    else Overwrite(s[..|s| - 1], item) + [if KeyOf(s[|s| - 1]) == KeyOf(item) then item else s[|s| - 1]]
  }

  function Put(s: seq<ScalingInfo>, item: ScalingInfo): seq<ScalingInfo> {
    if HasKey(s, KeyOf(item)) then Overwrite(s, item) else s + [item]
  }

  /** The entries whose key is not k, in order. */
  function Without(s: seq<ScalingInfo>, k: Key): seq<ScalingInfo> {
    if s == [] then []
    else (if KeyOf(s[0]) == k then [] else [s[0]]) + Without(s[1..], k)
  }

  /** The map a list stands for. */
  function AsMap(s: seq<ScalingInfo>): map<Key, ScalingInfo> {
    if s == [] then map[] else AsMap(s[..|s| - 1])[KeyOf(s[|s| - 1]) := s[|s| - 1]]
  }

  /** GetDeploymentInfoFromList: the item passed in is the answer when the list has none. */
  function Lookup(m: map<Key, ScalingInfo>, item: ScalingInfo): (ScalingInfo, bool) {
    if KeyOf(item) in m && Named(KeyOf(item)) then (m[KeyOf(item)], true) else (item, false)
  }

  function Marked(item: ScalingInfo, failure: bool, message: Message, desired: int): ScalingInfo {
    item.(failure := failure, failureMessage := message, desired := desired)
  }

  lemma {:induction false} AsMapKeys(s: seq<ScalingInfo>, k: Key)
    ensures k in AsMap(s) <==> HasKey(s, k)
  {
    if s != [] {
      AsMapKeys(s[..|s| - 1], k);
      HasKeySplit(s, k);
    }
  }

  lemma {:induction false} AsMapEntry(s: seq<ScalingInfo>, i: nat)
    requires UniqueKeys(s) && i < |s|
    ensures KeyOf(s[i]) in AsMap(s) && AsMap(s)[KeyOf(s[i])] == s[i]
  {
    if i < |s| - 1 {
      AsMapEntry(s[..|s| - 1], i);
      assert KeyOf(s[i]) != KeyOf(s[|s| - 1]);
    }
  }

  lemma {:induction false} AsMapSize(s: seq<ScalingInfo>)
    requires UniqueKeys(s)
    ensures |AsMap(s)| == |s|
  {
    if s != [] {
      AsMapSize(s[..|s| - 1]);
      LastKey(s);
      AsMapKeys(s[..|s| - 1], KeyOf(s[|s| - 1]));
    }
  }

  lemma {:induction false} AsMapIsTheList(s: seq<ScalingInfo>)
    requires UniqueKeys(s)
    ensures |AsMap(s)| == |s|
    ensures forall k :: k in AsMap(s) <==> HasKey(s, k)
    ensures forall i :: 0 <= i < |s| ==> KeyOf(s[i]) in AsMap(s) && AsMap(s)[KeyOf(s[i])] == s[i]
  {
    AsMapSize(s);
    forall k ensures k in AsMap(s) <==> HasKey(s, k) { AsMapKeys(s, k); }
    forall i | 0 <= i < |s| ensures KeyOf(s[i]) in AsMap(s) && AsMap(s)[KeyOf(s[i])] == s[i] { AsMapEntry(s, i); }
  }

  lemma {:induction false} AsMapKeyed(s: seq<ScalingInfo>, k: Key)
    requires UniqueKeys(s) && k in AsMap(s)
    ensures KeyOf(AsMap(s)[k]) == k
  {
    AsMapIsTheList(s);
  }

  lemma {:induction false} OverwriteAsMap(s: seq<ScalingInfo>, item: ScalingInfo)
    requires UniqueKeys(s)
    ensures AsMap(Overwrite(s, item)) == if HasKey(s, KeyOf(item)) then AsMap(s)[KeyOf(item) := item] else AsMap(s)
  {
    NoKeys(KeyOf(item));
    hide HasKey, Overwrite;
    if s == [] {
      assert Overwrite(s, item) == s;
    } else {
      var t, last := s[..|s| - 1], s[|s| - 1];
      OverwriteAsMap(t, item);
      OverwriteLast(s, item);
      HasKeySplit(s, KeyOf(item));
      LastKey(s);
    }
  }

  lemma {:induction false} NoKeys(k: Key)
    ensures !HasKey([], k)
  {
  }

  lemma {:induction false} OverwriteLast(s: seq<ScalingInfo>, item: ScalingInfo)
    requires s != []
    ensures var last := s[|s| - 1];
            AsMap(Overwrite(s, item))
            == AsMap(Overwrite(s[..|s| - 1], item))[KeyOf(last) := if KeyOf(last) == KeyOf(item) then item else last]
  {
    var r := Overwrite(s, item);
    assert r[..|s| - 1] == Overwrite(s[..|s| - 1], item);
  }

  lemma {:induction false} LastKey(s: seq<ScalingInfo>)
    requires UniqueKeys(s) && s != []
    ensures !HasKey(s[..|s| - 1], KeyOf(s[|s| - 1]))
  {
  }

  lemma {:induction false} HasKeySplit(s: seq<ScalingInfo>, k: Key)
    requires s != []
    ensures HasKey(s, k) == (HasKey(s[..|s| - 1], k) || KeyOf(s[|s| - 1]) == k)
  {
    var t := s[..|s| - 1];
    if HasKey(t, k) {
      var i :| 0 <= i < |t| && KeyOf(t[i]) == k;
      assert KeyOf(s[i]) == k;
    }
    if HasKey(s, k) {
      var i :| 0 <= i < |s| && KeyOf(s[i]) == k;
      assert i < |t| ==> KeyOf(t[i]) == k;
    }
  }

  lemma {:induction false} OverwriteUnique(s: seq<ScalingInfo>, item: ScalingInfo)
    requires UniqueKeys(s)
    ensures UniqueKeys(Overwrite(s, item))
  {
    var r := Overwrite(s, item);
    forall i, j | 0 <= i < j < |r| ensures KeyOf(r[i]) != KeyOf(r[j]) {
      assert KeyOf(s[i]) != KeyOf(s[j]);
    }
  }

  lemma {:induction false} AppendRefines(s: seq<ScalingInfo>, item: ScalingInfo)
    requires UniqueKeys(s) && !HasKey(s, KeyOf(item))
    ensures UniqueKeys(s + [item])
    ensures AsMap(s + [item]) == AsMap(s)[KeyOf(item) := item]
  {
    assert (s + [item])[..|s|] == s;
  }

  lemma {:induction false} PutRefines(s: seq<ScalingInfo>, item: ScalingInfo)
    requires UniqueKeys(s)
    ensures UniqueKeys(Put(s, item))
    ensures AsMap(Put(s, item)) == AsMap(s)[KeyOf(item) := item]
  {
    if HasKey(s, KeyOf(item)) { OverwriteUnique(s, item); OverwriteAsMap(s, item); } else { AppendRefines(s, item); }
  }

  lemma {:induction false} WithoutMissing(s: seq<ScalingInfo>, k: Key)
    requires !HasKey(s, k)
    ensures Without(s, k) == s
  {
    if s != [] {
      assert KeyOf(s[0]) != k;
      assert !HasKey(s[1..], k) by { assert forall i :: 0 <= i < |s| - 1 ==> s[1..][i] == s[i + 1]; }
      WithoutMissing(s[1..], k);
    }
  }

  /** Taking a key out of a list with unique keys takes out its one entry and leaves the rest in order. */
  lemma {:induction false} WithoutAt(s: seq<ScalingInfo>, i: nat)
    requires UniqueKeys(s) && i < |s|
    ensures Without(s, KeyOf(s[i])) == s[..i] + s[i + 1..]
    decreases |s|
  {
    var k, t := KeyOf(s[i]), s[1..];
    if i == 0 {
      assert !HasKey(t, k) by { assert forall j :: 0 <= j < |t| ==> t[j] == s[j + 1]; }
      WithoutMissing(t, k);
    } else {
      WithoutAt(t, i - 1);
      assert s[..i] + s[i + 1..] == [s[0]] + (t[..i - 1] + t[i..]);
    }
  }

  lemma {:induction false} WithoutRefines(s: seq<ScalingInfo>, k: Key)
    requires UniqueKeys(s)
    ensures UniqueKeys(Without(s, k))
    ensures AsMap(Without(s, k)) == AsMap(s) - {k}
  {
    AsMapKeys(s, k);
    if HasKey(s, k) {
      var i :| 0 <= i < |s| && KeyOf(s[i]) == k;
      WithoutAt(s, i);
      CutUnique(s, i);
      CutAsMap(s, i);
    } else {
      WithoutMissing(s, k);
      assert AsMap(s) - {k} == AsMap(s);
    }
  }

  lemma {:induction false} CutUnique(s: seq<ScalingInfo>, i: nat)
    requires UniqueKeys(s) && i < |s|
    ensures UniqueKeys(s[..i] + s[i + 1..])
  {
    var r := s[..i] + s[i + 1..];
    forall p, q | 0 <= p < q < |r| ensures KeyOf(r[p]) != KeyOf(r[q]) {
      assert KeyOf(s[if p < i then p else p + 1]) != KeyOf(s[if q < i then q else q + 1]);
    }
  }

  lemma {:induction false} AsMapSnoc(s: seq<ScalingInfo>, item: ScalingInfo)
    ensures AsMap(s + [item]) == AsMap(s)[KeyOf(item) := item]
  {
    assert (s + [item])[..|s|] == s;
  }

  lemma {:induction false} CutAsMap(s: seq<ScalingInfo>, i: nat)
    requires UniqueKeys(s) && i < |s|
    ensures AsMap(s[..i] + s[i + 1..]) == AsMap(s) - {KeyOf(s[i])}
    decreases |s|
  {
    hide AsMap, HasKey;
    var t, last, k := s[..|s| - 1], s[|s| - 1], KeyOf(s[i]);
    assert s == t + [last];
    AsMapSnoc(t, last);
    if i == |s| - 1 {
      assert s[..i] + s[i + 1..] == t;
      LastKey(s);
      AsMapKeys(t, k);
    } else {
      CutAsMap(t, i);
      var r := t[..i] + t[i + 1..];
      assert s[..i] + s[i + 1..] == r + [last];
      AsMapSnoc(r, last);
      assert KeyOf(last) != k;
    }
  }

  // ----- whole sequences of operations

  datatype Op =
    | UpdateOrAppend(item: ScalingInfo)
    | Update(item: ScalingInfo)
    | SetItem(item: ScalingInfo, failure: bool, message: Message, desired: int)
    | Remove(item: ScalingInfo)
    | Purge

  function OnList(s: seq<ScalingInfo>, op: Op): seq<ScalingInfo> {
    match op
    case UpdateOrAppend(item) => Put(s, item)
    case Update(item) => Overwrite(s, item)
    case SetItem(item, f, m, d) => Put(s, Marked(item, f, m, d))
    case Remove(item) => Without(s, KeyOf(item))
    case Purge => []
  }

  function OnMap(m: map<Key, ScalingInfo>, op: Op): map<Key, ScalingInfo> {
    match op
    case UpdateOrAppend(item) => m[KeyOf(item) := item]
    case Update(item) => if KeyOf(item) in m then m[KeyOf(item) := item] else m
    case SetItem(item, f, msg, d) => m[KeyOf(item) := Marked(item, f, msg, d)]
    case Remove(item) => m - {KeyOf(item)}
    case Purge => map[]
  }

  function RunOnList(s: seq<ScalingInfo>, ops: seq<Op>): seq<ScalingInfo>
    decreases |ops|
  {
    if ops == [] then s else RunOnList(OnList(s, ops[0]), ops[1..])
  }

  function RunOnMap(m: map<Key, ScalingInfo>, ops: seq<Op>): map<Key, ScalingInfo>
    decreases |ops|
  {
    if ops == [] then m else RunOnMap(OnMap(m, ops[0]), ops[1..])
  }

  lemma {:induction false} StepRefines(s: seq<ScalingInfo>, op: Op)
    requires UniqueKeys(s)
    ensures UniqueKeys(OnList(s, op)) && AsMap(OnList(s, op)) == OnMap(AsMap(s), op)
  {
    match op
    case UpdateOrAppend(item) => PutRefines(s, item);
    case SetItem(item, f, m, d) => PutRefines(s, Marked(item, f, m, d));
    case Remove(item) => WithoutRefines(s, KeyOf(item));
    case Purge =>
    case Update(item) =>
      AsMapIsTheList(s);
      OverwriteUnique(s, item);
      OverwriteAsMap(s, item);
  }

  /** Any serialised sequence of operations: keys stay unique, and the list holds exactly the entries of a
      map keyed by namespace and name to which the same operations were applied, each once. */
  lemma {:induction false} ListRefinesMap(s: seq<ScalingInfo>, ops: seq<Op>)
    requires UniqueKeys(s)
    ensures UniqueKeys(RunOnList(s, ops))
    ensures AsMap(RunOnList(s, ops)) == RunOnMap(AsMap(s), ops)
    ensures |RunOnList(s, ops)| == |RunOnMap(AsMap(s), ops)|
    ensures forall k :: HasKey(RunOnList(s, ops), k) <==> k in RunOnMap(AsMap(s), ops)
    decreases |ops|
  {
    if ops == [] {
      AsMapIsTheList(s);
    } else {
      StepRefines(s, ops[0]);
      ListRefinesMap(OnList(s, ops[0]), ops[1..]);
    }
  }
}

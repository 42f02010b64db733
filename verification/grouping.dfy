/** Splitting a listing into one group per namespace: sort, then cut the list where the namespace changes. */
module Grouping {
  import opened Items

  /** Go's order on strings. */
  predicate Less(a: string, b: string) {
    if b == "" then false
    else if a == "" then true
    else if a[0] != b[0] then a[0] < b[0]
    else Less(a[1..], b[1..])
  }

  lemma {:induction false} LessIsStrict(a: string, b: string)
    requires Less(a, b)
    ensures !Less(b, a) && a != b
  {
    if a != "" && a[0] == b[0] { LessIsStrict(a[1..], b[1..]); }
  }

  lemma {:induction false} LessIsTotal(a: string, b: string)
    requires !Less(a, b) && !Less(b, a)
    ensures a == b
  {
    if a != "" && b != "" {
      LessIsTotal(a[1..], b[1..]);
      assert a == [a[0]] + a[1..] && b == [b[0]] + b[1..];
    }
  }

  lemma {:induction false} LessIsTransitive(a: string, b: string, c: string)
    requires !Less(b, a) && !Less(c, b)
    ensures !Less(c, a)
  {
    if a != "" && b != "" && c != "" && a[0] == b[0] == c[0] { LessIsTransitive(a[1..], b[1..], c[1..]); }
  }

  ghost predicate Sorted(items: seq<ScalingInfo>) {
    forall i, j :: 0 <= i < j < |items| ==> !Less(items[j].ns, items[i].ns)
  }

  /** Items of one namespace follow each other. */
  ghost predicate Contiguous(items: seq<ScalingInfo>) {
    forall i, j, k :: 0 <= i < j < k < |items| && items[i].ns == items[k].ns ==> items[j].ns == items[i].ns
  }

  lemma {:induction false} SortedIsContiguous(items: seq<ScalingInfo>)
    requires Sorted(items)
    ensures Contiguous(items)
  {
    forall i, j, k | 0 <= i < j < k < |items| && items[i].ns == items[k].ns ensures items[j].ns == items[i].ns {
      LessIsTotal(items[i].ns, items[j].ns);
    }
  }

  // ----- the sort, of which only the result matters

  lemma {:induction false} InsertedIsSorted(sorted: seq<ScalingInfo>, item: ScalingInfo, n: nat)
    requires Sorted(sorted) && n <= |sorted|
    requires n > 0 ==> !Less(item.ns, sorted[n - 1].ns)
    requires forall i :: n <= i < |sorted| ==> Less(item.ns, sorted[i].ns)
    ensures Sorted(sorted[..n] + [item] + sorted[n..])
  {
    hide Less;
    var r := sorted[..n] + [item] + sorted[n..];
    forall i, j | 0 <= i < j < |r| ensures !Less(r[j].ns, r[i].ns) {
      if i == n {
        LessIsStrict(item.ns, sorted[j - 1].ns);
      } else if j == n {
        if i < n - 1 {
          assert !Less(sorted[n - 1].ns, sorted[i].ns);
          LessIsTransitive(sorted[i].ns, sorted[n - 1].ns, item.ns);
        }
      } else {
        assert r[i] == sorted[if i < n then i else i - 1] && r[j] == sorted[if j < n then j else j - 1];
      }
    }
  }

  method Insert(sorted: seq<ScalingInfo>, item: ScalingInfo) returns (r: seq<ScalingInfo>)
    requires Sorted(sorted)
    ensures Sorted(r) && |r| == |sorted| + 1 && multiset(r) == multiset(sorted + [item])
  {
    hide Sorted, Less;
    var n := |sorted|;
    while n > 0 && Less(item.ns, sorted[n - 1].ns)
      invariant 0 <= n <= |sorted|
      invariant forall i :: n <= i < |sorted| ==> Less(item.ns, sorted[i].ns)
    {
      n := n - 1;
    }
    InsertedIsSorted(sorted, item, n);
    r := sorted[..n] + [item] + sorted[n..];
    assert sorted == sorted[..n] + sorted[n..];
  }

  /** Stands in for sort.Slice. */
  method SortSlice(items: array<ScalingInfo>)
    modifies items
    ensures Sorted(items[..]) && multiset(items[..]) == multiset(old(items[..]))
  {
    ghost var given := items[..];
    var sorted: seq<ScalingInfo> := [];
    for n := 0 to items.Length
      invariant items[..] == given
      invariant Sorted(sorted) && |sorted| == n && multiset(sorted) == multiset(given[..n])
    {
      sorted := Insert(sorted, items[n]);
      assert given[..n + 1] == given[..n] + [given[n]];
    }
    assert given == given[..items.Length];
    forall n | 0 <= n < items.Length { items[n] := sorted[n]; }
    assert items[..] == sorted;
  }

  // ----- the groups

  /** The items of a namespace, in order. */
  function OfNamespace(items: seq<ScalingInfo>, ns: string): seq<ScalingInfo> {
    if items == [] then []
    else
      var n := |items| - 1;
      OfNamespace(items[..n], ns) + if items[n].ns == ns then [items[n]] else []
  }

  /** The last stretch of items of a namespace. */
  function LastRun(items: seq<ScalingInfo>, ns: string): seq<ScalingInfo> {
    if items == [] then []
    else
      var n := |items| - 1;
      if items[n].ns != ns then LastRun(items[..n], ns)
      else (if n > 0 && items[n - 1].ns == ns then LastRun(items[..n], ns) else []) + [items[n]]
  }

  predicate Occurs(items: seq<ScalingInfo>, ns: string) {
    exists i :: 0 <= i < |items| && items[i].ns == ns
  }

  /** The groups of a list: one for each namespace in it, holding its last stretch. */
  ghost predicate RunsOf(groups: map<string, seq<ScalingInfo>>, items: seq<ScalingInfo>) {
    (forall ns :: ns in groups <==> Occurs(items, ns)) && forall ns :: ns in groups ==> groups[ns] == LastRun(items, ns)
  }

  lemma {:induction false} LastRunSnoc(s: seq<ScalingInfo>, x: ScalingInfo, ns: string)
    ensures LastRun(s + [x], ns) ==
            if x.ns != ns then LastRun(s, ns) else (if s != [] && s[|s| - 1].ns == ns then LastRun(s, ns) else []) + [x]
  {
    assert (s + [x])[..|s|] == s;
  }

  /** A stretch of one namespace added to a list that does not end in that namespace. */
  lemma {:induction false} AddRun(items: seq<ScalingInfo>, run: seq<ScalingInfo>, ns: string, other: string)
    requires forall i :: 0 <= i < |run| ==> run[i].ns == ns
    requires items != [] ==> items[|items| - 1].ns != ns
    ensures LastRun(items + run, other) == if other == ns && run != [] then run else LastRun(items, other)
    decreases |run|
  {
    hide LastRun;
    if run == [] {
      assert items + run == items;
    } else {
      var n := |run| - 1;
      AddRun(items, run[..n], ns, other);
      LastRunSnoc(items + run[..n], run[n], other);
      assert items + run == items + run[..n] + [run[n]];
    }
  }

  lemma {:induction false} RunCloses(groups: map<string, seq<ScalingInfo>>, items: seq<ScalingInfo>,
      run: seq<ScalingInfo>, ns: string)
    requires RunsOf(groups, items) && run != []
    requires forall i :: 0 <= i < |run| ==> run[i].ns == ns
    requires items != [] ==> items[|items| - 1].ns != ns
    ensures RunsOf(groups[ns := run], items + run)
  {
    hide LastRun;
    var all := items + run;
    forall other ensures other in groups[ns := run] <==> Occurs(all, other) {
      assert all[|items|].ns == ns;
      if Occurs(items, other) {
        var i :| 0 <= i < |items| && items[i].ns == other;
        assert all[i].ns == other;
      }
      if Occurs(all, other) && other != ns {
        var i :| 0 <= i < |all| && all[i].ns == other;
        assert i < |items| && items[i].ns == other;
      }
    }
    forall other | other in groups[ns := run] ensures groups[ns := run][other] == LastRun(all, other) {
      AddRun(items, run, ns, other);
    }
  }

  /** The loop, on any list at all: what a namespace is left with is its last stretch. */
  method GroupRuns(items: seq<ScalingInfo>) returns (groups: map<string, seq<ScalingInfo>>)
    ensures RunsOf(groups, items)
  {
    groups := map[];
    var temp: seq<ScalingInfo> := [];
    ghost var closed := 0;
    hide RunsOf;
    NoRuns();
    for i := 0 to |items|
      invariant 0 <= closed <= i && temp == items[closed..i]
      invariant forall j :: closed <= j < i ==> items[j].ns == items[closed].ns
      invariant i < |items| && closed > 0 ==> items[closed - 1].ns != items[closed].ns
      invariant i < |items| ==> items[closed].ns == items[i].ns
      invariant RunsOf(groups, items[..closed])
      invariant i == |items| ==> closed == i
    {
      var namespace := items[i].ns;
      temp := temp + [items[i]];
      if i == |items| - 1 || items[i + 1].ns != namespace {
        RunCloses(groups, items[..closed], temp, namespace);
        assert items[..closed] + temp == items[..i + 1];
        groups := groups[namespace := temp];
        temp := [];
        closed := i + 1;
      }
    }
    assert items[..|items|] == items;
  }

  lemma {:induction false} NoRuns()
    ensures RunsOf(map[], [])
  {
  }

  /** The groups are those of the namespaces if and only if no namespace is interrupted. */
  lemma {:induction false} PartitionIff(items: seq<ScalingInfo>)
    ensures (forall ns :: LastRun(items, ns) == OfNamespace(items, ns)) <==> Contiguous(items)
  {
    if Contiguous(items) {
      forall ns ensures LastRun(items, ns) == OfNamespace(items, ns) { NothingLost(items, ns); }
    } else {
      var i, j, k :| 0 <= i < j < k < |items| && items[i].ns == items[k].ns && items[j].ns != items[i].ns;
      InterruptedLoses(items, i, j, k);
    }
  }

  lemma {:induction false} NotOccurring(items: seq<ScalingInfo>, ns: string)
    ensures OfNamespace(items, ns) == [] <==> !Occurs(items, ns)
  {
    if items != [] {
      var n := |items| - 1;
      NotOccurring(items[..n], ns);
      assert Occurs(items, ns) <==> Occurs(items[..n], ns) || items[n].ns == ns by {
        if Occurs(items[..n], ns) {
          var i :| 0 <= i < n && items[..n][i].ns == ns;
          assert items[i].ns == ns;
        }
        if Occurs(items, ns) && items[n].ns != ns {
          var i :| 0 <= i < |items| && items[i].ns == ns;
          assert items[..n][i].ns == ns;
        }
      }
    }
  }

  lemma {:induction false} NothingLost(items: seq<ScalingInfo>, ns: string)
    requires Contiguous(items)
    ensures LastRun(items, ns) == OfNamespace(items, ns)
  {
    if items != [] {
      var n := |items| - 1;
      var before := items[..n];
      assert Contiguous(before) by { assert forall i :: 0 <= i < n ==> before[i] == items[i]; }
      NothingLost(before, ns);
      if items[n].ns == ns && n > 0 && items[n - 1].ns != ns {
        assert !Occurs(before, ns) by { assert forall i :: 0 <= i < n ==> before[i] == items[i]; }
      }
      NotOccurring(before, ns);
    }
  }

  /** Where a namespace comes back after another, items of it are lost. */
  lemma {:induction false} InterruptedLoses(items: seq<ScalingInfo>, i: nat, j: nat, k: nat)
    requires i < j < k < |items| && items[i].ns == items[k].ns != items[j].ns
    ensures |LastRun(items, items[i].ns)| < |OfNamespace(items, items[i].ns)|
    decreases |items|
  {
    var n, ns := |items| - 1, items[i].ns;
    var before := items[..n];
    if items[n].ns != ns {
      InterruptedLoses(before, i, j, k);
    } else if items[n - 1].ns == ns {
      InterruptedLoses(before, i, j, if k == n then n - 1 else k);
    } else {
      assert before[i].ns == ns;
      NotOccurring(before, ns);
    }
  }

  /** A group depends only on which items there are, not on the order the sort left them in. */
  lemma {:induction false} GroupAsMultiset(items: seq<ScalingInfo>, ns: string, x: ScalingInfo)
    ensures multiset(OfNamespace(items, ns))[x] == if x.ns == ns then multiset(items)[x] else 0
  {
    if items != [] {
      var n := |items| - 1;
      GroupAsMultiset(items[..n], ns, x);
      assert items == items[..n] + [items[n]];
    }
  }

  /** Grouping is a partition: the listing is sorted in place, there is a group for each namespace of it and for no
      other, and a group has exactly the items of its namespace, each as often as the listing had it. */
  method GroupScalingItemByNamespace(items: array<ScalingInfo>) returns (groups: map<string, seq<ScalingInfo>>)
    modifies items
    ensures Sorted(items[..]) && multiset(items[..]) == multiset(old(items[..]))
    ensures forall ns :: ns in groups <==> Occurs(old(items[..]), ns)
    ensures forall ns :: ns in groups ==> groups[ns] != [] && groups[ns] == OfNamespace(items[..], ns)
    ensures forall ns :: ns in groups ==> multiset(groups[ns]) == multiset(OfNamespace(old(items[..]), ns))
  {
    ghost var given := items[..];
    if items.Length == 0 { return map[]; }
    SortSlice(items);
    groups := GroupRuns(items[..]);
    GroupsOfSorted(given, items[..], groups);
  }

  lemma {:induction false} GroupsOfSorted(given: seq<ScalingInfo>, items: seq<ScalingInfo>,
      groups: map<string, seq<ScalingInfo>>)
    requires Sorted(items) && multiset(items) == multiset(given) && RunsOf(groups, items)
    ensures forall ns :: ns in groups <==> Occurs(given, ns)
    ensures forall ns :: ns in groups ==> groups[ns] != [] && groups[ns] == OfNamespace(items, ns) &&
                                          multiset(groups[ns]) == multiset(OfNamespace(given, ns))
  {
    SortedIsContiguous(items);
    PartitionIff(items);
    hide Sorted, Contiguous, LastRun, OfNamespace, Occurs;
    forall ns
      ensures OfNamespace(items, ns) == [] <==> !Occurs(items, ns)
      ensures multiset(OfNamespace(items, ns)) == multiset(OfNamespace(given, ns))
      ensures Occurs(items, ns) <==> Occurs(given, ns)
    {
      forall x ensures multiset(OfNamespace(items, ns))[x] == multiset(OfNamespace(given, ns))[x] {
        GroupAsMultiset(items, ns, x);
        GroupAsMultiset(given, ns, x);
      }
      NotOccurring(items, ns);
      NotOccurring(given, ns);
      assert |multiset(OfNamespace(items, ns))| == |OfNamespace(items, ns)|;
      assert |multiset(OfNamespace(given, ns))| == |OfNamespace(given, ns)|;
    }
    forall ns | ns in groups ensures groups[ns] == OfNamespace(items, ns) {
      assert groups[ns] == LastRun(items, ns);
    }
  }
}

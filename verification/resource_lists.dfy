/** Resource lists and the arithmetic on them. Quantities are integers; replica counts are int32. */
module ResourceLists {
  import opened Items
  import opened DenyList

  type ResourceList = map<string, int>

  function Get(m: ResourceList, k: string): int {
    if k in m then m[k] else 0
  }

  function Plus(a: ResourceList, b: ResourceList): ResourceList {
    map k | k in a.Keys + b.Keys :: Get(a, k) + Get(b, k)
  }

  function Minus(a: ResourceList, b: ResourceList): ResourceList {
    map k | k in a.Keys + b.Keys :: Get(a, k) - Get(b, k)
  }

  /** n times a list; not a single entry when n is not positive. */
  function Times(n: int, m: ResourceList): ResourceList {
    if n <= 0 then map[] else map k | k in m :: n * m[k]
  }

  lemma {:induction false} IsPlus(a: ResourceList, b: ResourceList, r: ResourceList)
    requires forall k :: k in r <==> k in a || k in b
    requires forall k :: k in r ==> r[k] == Get(a, k) + Get(b, k)
    ensures r == Plus(a, b)
  {
  }

  method Add(a: ResourceList, b: ResourceList) returns (r: ResourceList)
    ensures r == Plus(a, b)
  {
    hide Plus;
    r := map[];
    var todo := a.Keys;
    while todo != {}
      invariant todo <= a.Keys && forall k :: k in r <==> k in a && k !in todo
      invariant forall k :: k in r ==> r[k] == Get(a, k) + Get(b, k)
      decreases |todo|
    {
      var key :| key in todo;
      var quantity := a[key];
      if key in b { quantity := quantity + b[key]; }
      r := r[key := quantity];
      todo := todo - {key};
    }
    r := AddRest(r, b);
    IsPlus(a, b, r);
  }

  /** The second loop of Add: the keys of b the result does not have yet. */
  method AddRest(first: ResourceList, b: ResourceList) returns (r: ResourceList)
    ensures forall k :: k in r <==> k in first || k in b
    ensures forall k :: k in r ==> r[k] == if k in first then first[k] else b[k]
  {
    r := first;
    var todo := b.Keys;
    while todo != {}
      invariant todo <= b.Keys && forall k :: k in r <==> k in first || (k in b && k !in todo)
      invariant forall k :: k in r ==> r[k] == if k in first then first[k] else b[k]
      decreases |todo|
    {
      var key :| key in todo;
      if key !in r { r := r[key := b[key]]; }
      todo := todo - {key};
    }
  }

  lemma {:induction false} IsMinus(a: ResourceList, b: ResourceList, r: ResourceList)
    requires forall k :: k in r <==> k in a || k in b
    requires forall k :: k in r ==> r[k] == Get(a, k) - Get(b, k)
    ensures r == Minus(a, b)
  {
  }

  method Subtract(a: ResourceList, b: ResourceList) returns (r: ResourceList)
    ensures r == Minus(a, b)
  {
    hide Minus;
    r := map[];
    var todo := a.Keys;
    while todo != {}
      invariant todo <= a.Keys && forall k :: k in r <==> k in a && k !in todo
      invariant forall k :: k in r ==> r[k] == Get(a, k) - Get(b, k)
      decreases |todo|
    {
      var key :| key in todo;
      var quantity := a[key];
      if key in b { quantity := quantity - b[key]; }
      r := r[key := quantity];
      todo := todo - {key};
    }
    r := SubtractRest(r, b);
    IsMinus(a, b, r);
  }

  /** The second loop of Subtract: the keys of b the result does not have yet. */
  method SubtractRest(first: ResourceList, b: ResourceList) returns (r: ResourceList)
    ensures forall k :: k in r <==> k in first || k in b
    ensures forall k :: k in r ==> r[k] == if k in first then first[k] else -b[k]
  {
    r := first;
    var todo := b.Keys;
    while todo != {}
      invariant todo <= b.Keys && forall k :: k in r <==> k in first || (k in b && k !in todo)
      invariant forall k :: k in r ==> r[k] == if k in first then first[k] else -b[k]
      decreases |todo|
    {
      var key :| key in todo;
      if key !in r { r := r[key := -b[key]]; }
      todo := todo - {key};
    }
  }

  /** Repeated addition; int32(i) < times never fails to end, for i stops at times. */
  method Mul(times: int, resources: ResourceList) returns (r: ResourceList)
    ensures r == Times(times, resources)
  {
    r := map[];
    var i := 0;
    while i < times
      invariant 0 <= i && (i <= times || times < 0) && (times <= 0 ==> i == 0)
      invariant r == Times(i, resources)
    {
      TimesNext(i, resources);
      r := Add(r, resources);
      i := i + 1;
    }
  }

  lemma {:induction false} TimesNext(i: nat, m: ResourceList)
    ensures Plus(Times(i, m), m) == Times(i + 1, m)
  {
    forall k | k in m ensures Get(Times(i, m), k) + m[k] == (i + 1) * m[k] {}
  }

  /** The keys that are negative. */
  method IsNegative(a: ResourceList) returns (names: seq<string>)
    ensures forall k :: k in names <==> k in a && a[k] < 0
  {
    names := [];
    var todo := a.Keys;
    while todo != {}
      invariant todo <= a.Keys
      invariant forall k :: k in names <==> k in a && k !in todo && a[k] < 0
      decreases |todo|
    {
      var k :| k in todo;
      if a[k] < 0 { names := names + [k]; }
      todo := todo - {k};
    }
  }

  method IsZero(a: ResourceList) returns (zero: bool)
    ensures zero <==> forall k :: k in a ==> a[k] == 0
  {
    var todo := a.Keys;
    while todo != {}
      invariant todo <= a.Keys
      invariant forall k :: k in a && k !in todo ==> a[k] == 0
      decreases |todo|
    {
      var k :| k in todo;
      if a[k] != 0 { return false; }
      todo := todo - {k};
    }
    return true;
  }

  /** The replicas to find room for; all of them when the count does not change. */
  function ReplicaCalc(a: int, b: int): int {
    var c := Int32(a - b);
    if c == 0 then a else c
  }

  // ----- the demand of a batch

  function LimitsNeeded(item: ScalingInfo): ResourceList {
    Times(ReplicaCalc(item.desired, item.spec), item.limits)
  }

  function Demand(items: seq<ScalingInfo>): ResourceList {
    if items == [] then map[] else Plus(Demand(items[..|items| - 1]), LimitsNeeded(items[|items| - 1]))
  }

  method LimitsNeededList(deployments: seq<ScalingInfo>) returns (needed: ResourceList)
    ensures needed == Demand(deployments)
  {
    needed := map[];
    for i := 0 to |deployments|
      invariant needed == Demand(deployments[..i])
    {
      assert deployments[..i + 1][..i] == deployments[..i];
      var item := deployments[i];
      var own := Mul(ReplicaCalc(item.desired, item.spec), item.limits);
      needed := Add(needed, own);
    }
    assert deployments[..|deployments|] == deployments;
  }

  function Pos(n: int): nat {
    if n < 0 then 0 else n
  }

  /** What the batch would really grow by, per resource. */
  function Growth(items: seq<ScalingInfo>, k: string): int {
    if items == [] then 0
    else
      var item := items[|items| - 1];
      Growth(items[..|items| - 1], k) + Pos(item.desired - item.spec) * Get(item.limits, k)
  }

  function SumOfNeeds(items: seq<ScalingInfo>, k: string): int {
    if items == [] then 0
    else
      var item := items[|items| - 1];
      SumOfNeeds(items[..|items| - 1], k) + Pos(ReplicaCalc(item.desired, item.spec)) * Get(item.limits, k)
  }

  /** Counts as int32 holds them, and no negative ones. */
  predicate Countable(item: ScalingInfo) {
    0 <= item.spec < 0x8000_0000 && 0 <= item.desired < 0x8000_0000
  }

  predicate Sane(items: seq<ScalingInfo>) {
    forall i :: 0 <= i < |items| ==> Countable(items[i]) && forall k :: k in items[i].limits ==> items[i].limits[k] >= 0
  }

  lemma {:induction false} TimesGet(n: int, m: ResourceList, k: string)
    ensures Get(Times(n, m), k) == Pos(n) * Get(m, k)
  {
  }

  /** The computed demand, resource by resource, is the sum over the items of the replicas to find room for. */
  lemma {:induction false} DemandIsTheSum(items: seq<ScalingInfo>, k: string)
    ensures Get(Demand(items), k) == SumOfNeeds(items, k)
  {
    if items != [] {
      var item := items[|items| - 1];
      DemandIsTheSum(items[..|items| - 1], k);
      TimesGet(ReplicaCalc(item.desired, item.spec), item.limits, k);
    }
  }

  /** No subtraction of counts wraps around. */
  lemma {:induction false} NoOverflow(item: ScalingInfo)
    requires Countable(item)
    ensures Int32(item.desired - item.spec) == item.desired - item.spec
  {
  }

  /** What one item adds to the demand beyond its growth. */
  lemma {:induction false} Excess(item: ScalingInfo, l: int)
    requires Countable(item) && l >= 0
    ensures var more := Pos(ReplicaCalc(item.desired, item.spec)) * l - Pos(item.desired - item.spec) * l;
            more == (if item.desired == item.spec then item.desired * l else 0) && more >= 0
    ensures Pos(item.desired - item.spec) * l >= 0
  {
    NoOverflow(item);
    NonNegative(item.desired, l);
    NonNegative(Pos(item.desired - item.spec), l);
  }

  /** The demand is never below the true growth, and is exactly that when, and only when, no item that stays where it is
      has replicas with a limit on the resource: those are counted in full. */
  lemma {:induction false} DemandCoversGrowth(items: seq<ScalingInfo>, k: string)
    requires Sane(items)
    ensures Get(Demand(items), k) >= Growth(items, k) >= 0
    ensures Get(Demand(items), k) == Growth(items, k) <==>
            forall i :: 0 <= i < |items| && items[i].desired == items[i].spec ==>
              items[i].desired * Get(items[i].limits, k) == 0
  {
    DemandIsTheSum(items, k);
    hide Demand, Int32;
    SumCoversGrowth(items, k);
  }

  lemma {:induction false} SumCoversGrowth(items: seq<ScalingInfo>, k: string)
    requires Sane(items)
    ensures SumOfNeeds(items, k) >= Growth(items, k) >= 0
    ensures SumOfNeeds(items, k) == Growth(items, k) <==>
            forall i :: 0 <= i < |items| && items[i].desired == items[i].spec ==>
              items[i].desired * Get(items[i].limits, k) == 0
  {
    if items != [] {
      var n := |items| - 1;
      var before, item := items[..n], items[n];
      assert forall i :: 0 <= i < n ==> before[i] == items[i];
      SumCoversGrowth(before, k);
      Excess(item, Get(item.limits, k));
      hide Pos, ReplicaCalc;
    }
  }

  lemma {:induction false} NonNegative(a: nat, b: nat)
    ensures a * b >= 0
  {
  }
}

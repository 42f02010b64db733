/** The deny list as the code keeps it: a slice over a backing array that every method changes in place.
    Each method is one atomic step. */
module Concurrent {
  import opened Items
  import opened DenyList

  /** What is left of the cells when the entry at `index` of a slice of length `len` is taken out: the
      entries behind it move down one cell, and the cell of the last one keeps its old value. */
  function Shifted(cells: seq<ScalingInfo>, len: nat, index: nat): (r: seq<ScalingInfo>)
    requires index < len <= |cells|
    ensures |r| == |cells|
  {
    cells[..index] + cells[index + 1..len] + cells[len - 1..]
  }

  /** The cells while the entries behind `index` are being moved down, up to cell j. */
  function Shifting(cells: seq<ScalingInfo>, index: nat, j: nat): (r: seq<ScalingInfo>)
    requires index <= j < |cells|
    ensures |r| == |cells|
  {
    cells[..index] + cells[index + 1..j + 1] + cells[j..]
  }

  lemma {:induction false} ShiftOne(cells: seq<ScalingInfo>, index: nat, j: nat)
    requires index <= j && j + 1 < |cells|
    ensures var c := Shifting(cells, index, j); c[j := c[j + 1]] == Shifting(cells, index, j + 1)
  {
    assert cells[index + 1..j + 2] == cells[index + 1..j + 1] + [cells[j + 1]];
  }

  /** One more cell of the in-place update loop. */
  lemma {:induction false} OverwriteNext(s: seq<ScalingInfo>, item: ScalingInfo, i: nat)
    requires i < |s|
    ensures var c := Overwrite(s[..i], item) + s[i..];
            c[i] == s[i] && Overwrite(s[..i + 1], item) + s[i + 1..] ==
            (if KeyOf(s[i]) == KeyOf(item) then c[i := item] else c)
    ensures HasKey(s[..i + 1], KeyOf(item)) == (HasKey(s[..i], KeyOf(item)) || KeyOf(s[i]) == KeyOf(item))
  {
    assert s[..i + 1][..i] == s[..i];
    HasKeySplit(s[..i + 1], KeyOf(item));
  }

  /** Where the removal loop stands after i of the |s| old entries: nothing taken out yet, or the one entry with
      key k gone, the others moved up, and no cell it can still visit, shifted or stale, holding that key. */
  ghost predicate Swept(s: seq<ScalingInfo>, k: Key, i: nat, cells: seq<ScalingInfo>, len: nat, next: ScalingInfo)
  {
    i <= |s| <= |cells| && len <= |s| &&
    if len == |s| then
      cells[..len] == s && !HasKey(s[..i], k) && (i < |s| ==> next == s[i])
    else
      cells[..len] == Without(s, k) && HasKey(s, k) && len == |s| - 1 &&
      (i < |s| ==> KeyOf(next) != k && forall j :: 0 <= j < |s| ==> KeyOf(cells[j]) != k)
  }

  /** No match: the next value may have been read before or after, the cells are the same. */
  lemma {:induction false} SweptOn(s: seq<ScalingInfo>, k: Key, i: nat, cells: seq<ScalingInfo>, len: nat,
      next: ScalingInfo)
    requires Swept(s, k, i, cells, len, next) && i < |s| && KeyOf(next) != k
    ensures Swept(s, k, i + 1, cells, len, if i + 1 < |s| then cells[i + 1] else next)
  {
    if len == |s| {
      assert s[..i + 1][..i] == s[..i];
      HasKeySplit(s[..i + 1], k);
    }
  }

  /** A match comes only once, in range, and whichever value the iterator reads next does not match again. */
  lemma {:induction false} SweptOut(s: seq<ScalingInfo>, k: Key, i: nat, cells: seq<ScalingInfo>, len: nat,
      next: ScalingInfo)
    requires UniqueKeys(s) && Swept(s, k, i, cells, len, next) && i < |s| && KeyOf(next) == k
    ensures len == |s|
    ensures var r := Shifted(cells, len, i);
            Swept(s, k, i + 1, r, len - 1, if i + 1 < |s| then r[i + 1] else next) &&
            Swept(s, k, i + 1, r, len - 1, if i + 1 < |s| then cells[i + 1] else next)
  {
    var r := Shifted(cells, len, i);
    assert r[..len - 1] == s[..i] + s[i + 1..];
    WithoutAt(s, i);
    if i + 1 < |s| {
      assert cells[i + 1] == s[i + 1];
      forall j | 0 <= j < |s| ensures KeyOf(r[j]) != k {
        assert r[j] == s[if j < i then j else if j < |s| - 1 then j + 1 else j];
      }
    }
  }

  lemma {:induction false} SweptStart(s: seq<ScalingInfo>, k: Key, cells: seq<ScalingInfo>, next: ScalingInfo)
    requires |s| <= |cells| && cells[..|s|] == s && (s != [] ==> next == cells[0])
    ensures Swept(s, k, 0, cells, |s|, next)
  {
  }

  lemma {:induction false} SweptEnd(s: seq<ScalingInfo>, k: Key, cells: seq<ScalingInfo>, len: nat, next: ScalingInfo)
    requires Swept(s, k, |s|, cells, len, next)
    ensures len <= |cells| && cells[..len] == Without(s, k)
  {
    if len == |s| {
      assert s[..|s|] == s;
      WithoutMissing(s, k);
    }
  }

  // ----- the removal loop, on any list

  /** Where the loop stands: the cells, the length, the value the iterator yields next, and whether all removals were in
      range. */
  datatype Walk = Walk(cells: seq<ScalingInfo>, len: nat, next: ScalingInfo, inRange: bool)

  /** Round i of n. `early` says whether the iterator reads its next value before the loop body or after it. A match
      past the current length is out of range, and ends everything. */
  function Round(w: Walk, k: Key, i: nat, n: nat, early: bool): (r: Walk)
    requires i < n <= |w.cells| && w.len <= n
    ensures |r.cells| == |w.cells| && r.len <= n
  {
    if !w.inRange then w
    else if KeyOf(w.next) == k && i >= w.len then w.(inRange := false)
    else
      var matches := KeyOf(w.next) == k;
      var cells := if matches then Shifted(w.cells, w.len, i) else w.cells;
      Walk(cells, if matches then w.len - 1 else w.len,
           if i + 1 < n then (if early then w.cells[i + 1] else cells[i + 1]) else w.next, true)
  }

  /** After as many rounds as the schedule has entries. */
  function Walked(cells: seq<ScalingInfo>, k: Key, n: nat, schedule: seq<bool>): (r: Walk)
    requires |schedule| <= n <= |cells|
    ensures |r.cells| == |cells| && r.len <= n
  {
    if schedule == [] then Walk(cells, n, if n > 0 then cells[0] else BLANK, true)
    else
      var i := |schedule| - 1;
      Round(Walked(cells, k, n, schedule[..i]), k, i, n, schedule[i])
  }

  /** The last entry has the key, and an earlier one too. */
  predicate Overruns(s: seq<ScalingInfo>, k: Key) {
    s != [] && KeyOf(s[|s| - 1]) == k && HasKey(s[..|s| - 1], k)
  }

  function AtMost(j: nat, n: nat): nat {
    if j <= n then j else n
  }

  /** From cell i on, every cell holds what was r cells further on, or the last entry. */
  ghost predicate CellsMoved(cells: seq<ScalingInfo>, now: seq<ScalingInfo>, n: nat, i: nat, r: nat)
    requires n <= |cells| && n <= |now|
  {
    forall j :: i <= j < n ==> now[j] == cells[AtMost(j + r, n - 1)]
  }

  /** In range, after i rounds that removed r entries: every cell still to be visited holds what was r cells further on,
      or the last entry; and so does the value read ahead, or what was one cell nearer. */
  ghost predicate Moved(cells: seq<ScalingInfo>, k: Key, n: nat, i: nat, w: Walk) {
    i <= n <= |cells| == |w.cells| && w.len <= n &&
    var r := n - w.len;
    r <= i && CellsMoved(cells, w.cells, n, i, r) &&
    (i < n ==> w.next == cells[AtMost(i + r, n - 1)] || (r > 0 && w.next == cells[AtMost(i + r - 1, n - 1)])) &&
    (r == 0 ==> w.cells == cells && !HasKey(cells[..i], k)) &&
    (r > 0 ==> HasKey(cells[..i], k))
  }

  lemma {:induction false} HasKeyNext(cells: seq<ScalingInfo>, k: Key, i: nat)
    requires i < |cells|
    ensures HasKey(cells[..i + 1], k) == (HasKey(cells[..i], k) || KeyOf(cells[i]) == k)
  {
    assert cells[..i + 1][..i] == cells[..i];
    HasKeySplit(cells[..i + 1], k);
  }

  lemma {:induction false} ShiftedAt(cells: seq<ScalingInfo>, len: nat, index: nat, j: nat)
    requires index < len <= |cells| && index <= j < |cells|
    ensures Shifted(cells, len, index)[j] == if j + 1 < len then cells[j + 1] else cells[j]
  {
  }

  lemma {:induction false} MovedOn(cells: seq<ScalingInfo>, k: Key, n: nat, i: nat, w: Walk, early: bool)
    requires Moved(cells, k, n, i, w) && i < n && w.inRange && Round(w, k, i, n, early).inRange
    ensures Moved(cells, k, n, i + 1, Round(w, k, i, n, early))
  {
    hide HasKey, Shifted;
    HasKeyNext(cells, k, i);
    if KeyOf(w.next) == k { RemovedOn(cells, k, n, i, w, early); }
  }

  lemma {:induction false} CellsRemoved(cells: seq<ScalingInfo>, now: seq<ScalingInfo>, n: nat, i: nat, len: nat)
    requires n <= |cells| && len <= n <= |now| && i < len && CellsMoved(cells, now, n, i, n - len)
    ensures CellsMoved(cells, Shifted(now, len, i), n, i + 1, n - len + 1)
  {
    hide Shifted;
    var r := n - len;
    forall j | i + 1 <= j < n ensures Shifted(now, len, i)[j] == cells[AtMost(j + (r + 1), n - 1)] {
      ShiftedAt(now, len, i, j);
      assert now[j] == cells[AtMost(j + r, n - 1)];
      if j + 1 < len { assert now[j + 1] == cells[AtMost(j + 1 + r, n - 1)]; }
    }
  }

  lemma {:induction false} CellAt(cells: seq<ScalingInfo>, now: seq<ScalingInfo>, n: nat, i: nat, r: nat, j: nat)
    requires n <= |cells| && n <= |now| && CellsMoved(cells, now, n, i, r) && i <= j < n
    ensures now[j] == cells[AtMost(j + r, n - 1)]
  {
  }

  lemma {:induction false} RemovedOn(cells: seq<ScalingInfo>, k: Key, n: nat, i: nat, w: Walk, early: bool)
    requires Moved(cells, k, n, i, w) && i < n && w.inRange && KeyOf(w.next) == k && i < w.len
    requires HasKey(cells[..i + 1], k) == (HasKey(cells[..i], k) || KeyOf(cells[i]) == k)
    ensures Moved(cells, k, n, i + 1, Round(w, k, i, n, early))
  {
    hide HasKey, Shifted, CellsMoved, AtMost;
    var r := n - w.len;
    CellsRemoved(cells, w.cells, n, i, w.len);
    if i + 1 < n {
      CellAt(cells, w.cells, n, i, r, i + 1);
      CellAt(cells, Shifted(w.cells, w.len, i), n, i + 1, r + 1, i + 1);
    }
    NoneRemoved(i, n);
  }

  lemma {:induction false} NoneRemoved(i: nat, n: nat)
    requires i < n
    ensures AtMost(i, n - 1) == i
  {
  }

  lemma {:induction false} OutOfRange(cells: seq<ScalingInfo>, k: Key, n: nat, i: nat, w: Walk, early: bool)
    requires Moved(cells, k, n, i, w) && i < n && w.inRange && !Round(w, k, i, n, early).inRange
    ensures Overruns(cells[..n], k)
  {
    var s := cells[..n];
    assert w.next == cells[n - 1];
    var p :| 0 <= p < i && KeyOf(cells[..i][p]) == k;
    assert s[..n - 1][p] == cells[p];
  }

  lemma {:induction false} WalkMoves(cells: seq<ScalingInfo>, k: Key, n: nat, schedule: seq<bool>)
    requires |schedule| <= n <= |cells|
    ensures var w := Walked(cells, k, n, schedule);
            if w.inRange then Moved(cells, k, n, |schedule|, w) else Overruns(cells[..n], k)
  {
    hide Round, Moved, Overruns;
    if schedule == [] {
      StandingStill(cells, k, n);
    } else {
      var i := |schedule| - 1;
      WalkMoves(cells, k, n, schedule[..i]);
      var w := Walked(cells, k, n, schedule[..i]);
      if !w.inRange { OutStaysOut(w, k, i, n, schedule[i]); }
      else if Walked(cells, k, n, schedule).inRange { MovedOn(cells, k, n, i, w, schedule[i]); }
      else { OutOfRange(cells, k, n, i, w, schedule[i]); }
    }
  }

  lemma {:induction false} StandingStill(cells: seq<ScalingInfo>, k: Key, n: nat)
    requires n <= |cells|
    ensures Walked(cells, k, n, []).inRange && Moved(cells, k, n, 0, Walked(cells, k, n, []))
  {
  }

  lemma {:induction false} OutStaysOut(w: Walk, k: Key, i: nat, n: nat, early: bool)
    requires i < n <= |w.cells| && w.len <= n && !w.inRange
    ensures !Round(w, k, i, n, early).inRange
  {
  }

  /** Taking a key out of a list, unique keys or not, stays in range if and only if it is not the case that the last
      entry has the key and an earlier one too; and that does not depend on when the iterator reads. */
  lemma {:induction false} OverrunIff(cells: seq<ScalingInfo>, k: Key, n: nat, schedule: seq<bool>)
    requires |schedule| == n <= |cells|
    ensures Walked(cells, k, n, schedule).inRange <==> !Overruns(cells[..n], k)
  {
    hide Moved;
    WalkMoves(cells, k, n, schedule);
    if n > 0 && Walked(cells, k, n, schedule).inRange {
      var i := n - 1;
      var w := Walked(cells, k, n, schedule[..i]);
      WalkMoves(cells, k, n, schedule[..i]);
      LastRound(cells, k, n, w, schedule[i]);
    }
  }

  lemma {:induction false} LastRound(cells: seq<ScalingInfo>, k: Key, n: nat, w: Walk, early: bool)
    requires n > 0 && w.inRange && Moved(cells, k, n, n - 1, w) && Round(w, k, n - 1, n, early).inRange
    ensures !Overruns(cells[..n], k)
  {
    assert cells[..n][..n - 1] == cells[..n - 1];
  }

  /** A walk over the first n cells, in range to its end. */
  ghost predicate IsWalk(
      cells: seq<ScalingInfo>, n: nat, k: Key, schedule: seq<bool>, after: seq<ScalingInfo>, len: nat)
  {
    |schedule| == n <= |cells| &&
    var w := Walked(cells, k, n, schedule);
    w.inRange && w.cells == after && w.len == len
  }

  lemma {:induction false} WalkStarts(cells: seq<ScalingInfo>, k: Key, n: nat)
    requires n <= |cells|
    ensures Walked(cells, k, n, []) == Walk(cells, n, if n > 0 then cells[0] else BLANK, true)
  {
  }

  /** The next round of a walk that has to stay in range. */
  lemma {:induction false} WalkGoesOn(cells: seq<ScalingInfo>, k: Key, n: nat, schedule: seq<bool>, early: bool)
    requires |schedule| < n <= |cells| && (UniqueKeys(cells[..n]) || !Overruns(cells[..n], k))
    ensures Walked(cells, k, n, schedule + [early]) == Round(Walked(cells, k, n, schedule), k, |schedule|, n, early)
    ensures Walked(cells, k, n, schedule + [early]).inRange
  {
    hide Round, Overruns, Swept;
    assert (schedule + [early])[..|schedule|] == schedule;
    WalkMoves(cells, k, n, schedule + [early]);
    if UniqueKeys(cells[..n]) { UniqueWalk(cells, k, n, schedule + [early]); }
  }

  lemma {:induction false} RoundOf(w: Walk, k: Key, i: nat, n: nat, early: bool)
    requires i < n <= |w.cells| && w.len <= n && w.inRange && Round(w, k, i, n, early).inRange
    ensures var cells := if KeyOf(w.next) == k && i < w.len then Shifted(w.cells, w.len, i) else w.cells;
            (KeyOf(w.next) == k ==> i < w.len) &&
            Round(w, k, i, n, early) ==
            Walk(cells, if KeyOf(w.next) == k then w.len - 1 else w.len,
                 if i + 1 < n then (if early then w.cells[i + 1] else cells[i + 1]) else w.next, true)
  {
    hide Shifted;
  }

  lemma {:induction false} TakenOut(cells: seq<ScalingInfo>, k: Key, n: nat, schedule: seq<bool>)
    requires |schedule| == n <= |cells| && UniqueKeys(cells[..n])
    ensures var w := Walked(cells, k, n, schedule);
            w.cells[..w.len] == Without(cells[..n], k) && UniqueKeys(w.cells[..w.len]) &&
            AsMap(w.cells[..w.len]) == AsMap(cells[..n]) - {k}
  {
    hide Walked, Swept, Without, AsMap, UniqueKeys;
    UniqueWalk(cells, k, n, schedule);
    var w := Walked(cells, k, n, schedule);
    SweptEnd(cells[..n], k, w.cells, w.len, w.next);
    WithoutRefines(cells[..n], k);
  }

  /** With unique keys it is always in range, and takes out exactly the entry of the key. */
  lemma {:induction false} UniqueWalk(cells: seq<ScalingInfo>, k: Key, n: nat, schedule: seq<bool>)
    requires |schedule| <= n <= |cells| && UniqueKeys(cells[..n])
    ensures var w := Walked(cells, k, n, schedule);
            w.inRange && Swept(cells[..n], k, |schedule|, w.cells, w.len, w.next)
  {
    hide Swept, Shifted, HasKey, UniqueKeys;
    var s := cells[..n];
    if schedule == [] {
      SweptStart(s, k, cells, Walked(cells, k, n, []).next);
    } else {
      var i := |schedule| - 1;
      UniqueWalk(cells, k, n, schedule[..i]);
      var w := Walked(cells, k, n, schedule[..i]);
      if KeyOf(w.next) == k {
        SweptOut(s, k, i, w.cells, w.len, w.next);
      } else {
        SweptOn(s, k, i, w.cells, w.len, w.next);
      }
    }
  }

  class ConcurrentSlice {
    var backing: array<ScalingInfo>
    var len: nat

    ghost predicate Valid()
      reads this
    {
      len <= backing.Length
    }

    function Contents(): seq<ScalingInfo>
      requires Valid()
      reads this, backing
    {
      backing[..len]
    }

    /** The list is in order for its users: its keys are unique. */
    ghost predicate Sound()
      reads this, backing
    {
      Valid() && UniqueKeys(Contents())
    }

    /** The map from key to entry the list stands for. */
    function Entries(): map<Key, ScalingInfo>
      requires Valid()
      reads this, backing
    {
      AsMap(Contents())
    }

    constructor ()
      ensures Sound() && fresh(backing) && Contents() == [] && Entries() == map[]
    {
      backing := new ScalingInfo[0];
      len := 0;
    }

    method Append(item: ScalingInfo)
      requires Valid()
      modifies this, backing
      ensures Valid() && (backing == old(backing) || fresh(backing))
      ensures Contents() == old(Contents()) + [item]
    {
      if len == backing.Length {
        var larger := new ScalingInfo[2 * len + 1](_ => item);
        forall j | 0 <= j < len { larger[j] := backing[j]; }
        backing := larger;
      }
      backing[len] := item;
      len := len + 1;
    }

    /** The loop of Update: every entry with the key of `item` is replaced where it stands. */
    method Update(item: ScalingInfo) returns (found: bool)
      requires Valid()
      modifies backing
      ensures Contents() == Overwrite(old(Contents()), item)
      ensures found == HasKey(old(Contents()), KeyOf(item))
    {
      found := false;
      ghost var s := Contents();
      var i := 0;
      while i < len
        invariant 0 <= i <= len == |s|
        invariant Contents() == Overwrite(s[..i], item) + s[i..]
        invariant found == HasKey(s[..i], KeyOf(item))
      {
        OverwriteNext(s, item, i);
        assert backing[i] == Contents()[i];
        if item.name == backing[i].name && item.ns == backing[i].ns {
          SetCell(i, item);
          found := true;
        }
        i := i + 1;
      }
      assert s[..len] == s;
    }

    method SetCell(i: nat, item: ScalingInfo)
      requires Valid() && i < len
      modifies backing
      ensures Contents() == old(Contents())[i := item]
    {
      backing[i] := item;
    }

    method UpdateOrAppend(item: ScalingInfo)
      requires Sound()
      modifies this, backing
      ensures Sound() && (backing == old(backing) || fresh(backing))
      ensures Contents() == Put(old(Contents()), item)
      ensures Entries() == old(Entries())[KeyOf(item) := item]
    {
      PutRefines(Contents(), item);
      var found := Update(item);
      if !found {
        assert Contents() == old(Contents());
        Append(item);
      }
    }

    method SetScalingItemOnList(item: ScalingInfo, failure: bool, message: Message, desired: int)
      requires Sound()
      modifies this, backing
      ensures Sound() && (backing == old(backing) || fresh(backing))
      ensures Contents() == Put(old(Contents()), Marked(item, failure, message, desired))
      ensures Entries() == old(Entries())[KeyOf(item) := Marked(item, failure, message, desired)]
    {
      UpdateOrAppend(item.(failure := failure, failureMessage := message, desired := desired));
    }

    /** append(s[:index], s[index+1:]...): out of range, a panic, unless index < len. */
    method RemoveIndex(index: nat)
      requires Valid() && index < len
      modifies this, backing
      ensures backing == old(backing) && len == old(len) - 1
      ensures backing[..] == Shifted(old(backing[..]), old(len), index)
    {
      ghost var cells := backing[..];
      var j := index;
      while j < len - 1
        invariant index <= j < len == old(len) && backing == old(backing) && Valid()
        invariant backing[..] == Shifting(cells, index, j)
      {
        ShiftOne(cells, index, j);
        assert backing[j + 1] == backing[..][j + 1];
        backing[j] := backing[j + 1];
        j := j + 1;
      }
      len := len - 1;
    }

    /** The iterator keeps walking over the old length of the shifted array, one value ahead of the loop: the
        value it yields next was read either before or after the loop body ran. */
    method RemoveFromList(item: ScalingInfo)
      requires Valid() && (Sound() || !Overruns(Contents(), KeyOf(item)))
      modifies this, backing
      ensures Valid() && backing == old(backing)
      ensures exists schedule :: IsWalk(old(backing[..]), old(len), KeyOf(item), schedule, backing[..], len)
      ensures old(Sound()) ==> Sound() && Contents() == Without(old(Contents()), KeyOf(item)) &&
                               Entries() == old(Entries()) - {KeyOf(item)}
    {
      hide Walked, Round, Shifted, UniqueKeys, Without, AsMap, HasKey, Overruns;
      ghost var cells, k, schedule := backing[..], KeyOf(item), [];
      var n := len;
      assert cells[..n] == Contents();
      var i := 0;
      var next := BLANK;
      if n > 0 { next := backing[0]; }
      WalkStarts(cells, k, n);
      while i < n
        invariant 0 <= i <= n <= backing.Length && backing == old(backing) && Valid() && |schedule| == i && len <= n
        invariant Walked(cells, k, n, schedule) == Walk(backing[..], len, next, true)
      {
        var value, early: bool := next, *;
        WalkGoesOn(cells, k, n, schedule, early);
        RoundOf(Walk(backing[..], len, value, true), k, i, n, early);
        if early && i + 1 < n { next := backing[i + 1]; }
        if item.name == value.name && item.ns == value.ns { RemoveIndex(i); }
        if !early && i + 1 < n { next := backing[i + 1]; }
        schedule := schedule + [early];
        i := i + 1;
      }
      assert IsWalk(cells, n, k, schedule, backing[..], len);
      if old(Sound()) { TakenOut(cells, k, n, schedule); }
      assert Contents() == backing[..][..len];
    }

    /** Each of as many rounds as the list had entries takes out the first one. */
    method PurgeList()
      requires Valid()
      modifies this, backing
      ensures Sound() && backing == old(backing) && Contents() == []
    {
      var n, i := len, 0;
      while i < n
        invariant 0 <= i <= n && Valid() && backing == old(backing) && len == n - i
      {
        RemoveIndex(0);
        i := i + 1;
      }
    }

    method Length() returns (n: nat)
      requires Sound()
      ensures n == |Entries()|
    {
      n := 0;
      while n < len
        invariant n <= len
      {
        n := n + 1;
      }
      AsMapIsTheList(Contents());
    }

    /** What the reading loops use at entry i: it is the i-th of the list, and the one its key stands for. */
    lemma {:induction false} Visit(i: nat, k: Key)
      requires Sound() && i < len
      ensures backing[i] == Contents()[i]
      ensures HasKey(Contents()[..i + 1], k) == (HasKey(Contents()[..i], k) || KeyOf(backing[i]) == k)
      ensures KeyOf(backing[i]) in Entries() && Entries()[KeyOf(backing[i])] == backing[i]
    {
      var s := Contents();
      assert s[..i + 1][..i] == s[..i];
      HasKeySplit(s[..i + 1], k);
      AsMapEntry(s, i);
    }

    method IsInConcurrentList(item: ScalingInfo) returns (result: bool)
      requires Sound()
      ensures result <==> KeyOf(item) in Entries()
    {
      result := false;
      for i := 0 to len
        invariant result == HasKey(Contents()[..i], KeyOf(item))
      {
        Visit(i, KeyOf(item));
        if item.name == backing[i].name && item.ns == backing[i].ns { result := true; }
      }
      assert Contents()[..len] == Contents();
      AsMapKeys(Contents(), KeyOf(item));
    }

    method IsBeingScaled(item: ScalingInfo) returns (result: bool)
      requires Sound()
      ensures result <==> KeyOf(item) in Entries() && Entries()[KeyOf(item)].isBeingScaled
    {
      result := false;
      for i := 0 to len
        invariant result <==>
                  HasKey(Contents()[..i], KeyOf(item)) &&
                  KeyOf(item) in Entries() && Entries()[KeyOf(item)].isBeingScaled
      {
        Visit(i, KeyOf(item));
        if item.name == backing[i].name && item.ns == backing[i].ns && backing[i].isBeingScaled { result := true; }
      }
      assert Contents()[..len] == Contents();
      AsMapKeys(Contents(), KeyOf(item));
    }

    /** The entry for the item; the item itself and false when there is none, or when its name or namespace is empty. */
    method GetDeploymentInfoFromList(item: ScalingInfo) returns (result: ScalingInfo, found: bool)
      requires Sound()
      ensures (result, found) == Lookup(Entries(), item)
    {
      result := BLANK;
      for i := 0 to len
        invariant HasKey(Contents()[..i], KeyOf(item)) ==> KeyOf(item) in Entries() && result == Entries()[KeyOf(item)]
        invariant HasKey(Contents()[..i], KeyOf(item)) ==> KeyOf(result) == KeyOf(item)
        invariant !HasKey(Contents()[..i], KeyOf(item)) ==> result == BLANK
      {
        Visit(i, KeyOf(item));
        if item.name == backing[i].name && item.ns == backing[i].ns { result := backing[i]; }
      }
      assert Contents()[..len] == Contents();
      AsMapKeys(Contents(), KeyOf(item));
      if result.name != "" && result.ns != "" { return result, true; }
      return item, false;
    }

    method IsDeploymentInFailureState(item: ScalingInfo) returns (result: bool)
      requires Sound()
      ensures result <==> KeyOf(item) in Entries() && Named(KeyOf(item)) && Entries()[KeyOf(item)].failure
    {
      var onList, found := GetDeploymentInfoFromList(item);
      if !found { return false; }
      return onList.failure;
    }
  }

  /** Unique keys are what keeps RemoveFromList in range. On a two-entry list with one key twice, taking out the
      first leaves the stale cell the iterator visits next with the same key, at an index past the new length. */
  lemma DuplicateKeyOverrun(a: ScalingInfo, b: ScalingInfo)
    requires KeyOf(a) == KeyOf(b)
    ensures !UniqueKeys([a, b])
    ensures KeyOf([a, b][1]) == KeyOf(a) && KeyOf(Shifted([a, b], 2, 0)[1]) == KeyOf(a)
    ensures Shifted([a, b], 2, 0)[..1] == [b] && Without([a, b], KeyOf(a)) == []
  {
    assert KeyOf([a, b][0]) == KeyOf([a, b][1]);
    assert [a, b][1..] == [b];
    assert Without([b], KeyOf(a)) == [] by { assert [b][1..] == []; }
  }
}

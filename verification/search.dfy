/** The search every lookup by name does: the first element of the name counts. */
module Search {
  import opened Items

  function First<T>(s: seq<T>, nameOf: T -> string, name: string): Option<T> {
    if s == [] then None
    else
      var n := |s| - 1;
      var earlier := First(s[..n], nameOf, name);
      if earlier.Some? then earlier else if nameOf(s[n]) == name then Some(s[n]) else None
  }

  ghost predicate IsFirst<T(!new)>(s: seq<T>, nameOf: T -> string, i: int, t: T) {
    0 <= i < |s| && s[i] == t && forall j :: 0 <= j < i ==> nameOf(s[j]) != nameOf(t)
  }

  /** It finds an element of the name with none of the name before it, and nothing if and only if there is none. */
  lemma {:induction false} FirstIs<T(!new)>(s: seq<T>, nameOf: T -> string, name: string)
    ensures match First(s, nameOf, name)
            case None => forall i :: 0 <= i < |s| ==> nameOf(s[i]) != name
            case Some(t) => nameOf(t) == name && exists i :: IsFirst(s, nameOf, i, t)
  {
    if s != [] {
      var n := |s| - 1;
      var before := s[..n];
      FirstIs(before, nameOf, name);
      assert forall i :: 0 <= i < n ==> before[i] == s[i];
      if First(before, nameOf, name).Some? {
        var i :| IsFirst(before, nameOf, i, First(before, nameOf, name).value);
        assert IsFirst(s, nameOf, i, First(s, nameOf, name).value);
      } else if nameOf(s[n]) == name {
        assert IsFirst(s, nameOf, n, s[n]);
      }
    }
  }

  /** Looking further does not change what was found. */
  lemma {:induction false} FirstEarly<T>(s: seq<T>, n: nat, nameOf: T -> string, name: string)
    requires n <= |s| && First(s[..n], nameOf, name).Some?
    ensures First(s, nameOf, name) == First(s[..n], nameOf, name)
    decreases |s| - n
  {
    if n < |s| {
      assert s[..n + 1][..n] == s[..n];
      FirstEarly(s, n + 1, nameOf, name);
    } else {
      assert s[..n] == s;
    }
  }
}

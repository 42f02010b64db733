/** A listing of items that was read at some moment, and what makes it go on describing the cluster. */
module Listings {
  import opened Items
  import opened DenyList
  import opened ScalerMachine
  import opened System
  import opened Bounds
  import opened Interleaving

  ghost predicate OnceIn(listing: seq<ScalingInfo>, k: Key) {
    forall i, j :: 0 <= i < j < |listing| && KeyOf(listing[i]) == k ==> KeyOf(listing[j]) != k
  }

  /** The item of key k is listed once, as the cluster has it, and nobody has begun to scale it. */
  ghost predicate Free(sys: Sys, listing: seq<ScalingInfo>, k: Key) {
    Named(k) && OnceIn(listing, k) && k !in sys.sh.deny &&
    (forall i :: 0 <= i < |listing| && KeyOf(listing[i]) == k && k in sys.sh.cluster ==>
      sys.sh.cluster[k].spec == listing[i].spec) &&
    forall id :: Active(sys.scalers, id) ==> KeyOf(sys.scalers[id].item) != k
  }

  /** As far as some keys are concerned, the listing is what the cluster has; about other keys it says nothing. */
  ghost predicate Matches(sys: Sys, listing: seq<ScalingInfo>, keys: set<Key>) {
    WellKeyed(sys.sh.deny) && AllOwn(sys.scalers) && forall k :: k in keys ==> Free(sys, listing, k)
  }

  /** None of the keys is reconciled; anything else may happen, to their objects as well. */
  ghost predicate KeepsAway(ev: Event, keys: set<Key>) {
    Possible(ev) && (ev.ReconcileNs? || ev.ReconcileItem? ==> KeyOf(ev.item) !in keys)
  }

  ghost predicate SameAt(sh: Shared, sh': Shared, k: Key) {
    k !in sh.deny ==>
      k !in sh'.deny && (k in sh'.cluster ==> k in sh.cluster && sh'.cluster[k].spec == sh.cluster[k].spec)
  }

  lemma {:induction false} FreeStill(sys: Sys, sys': Sys, listing: seq<ScalingInfo>, k: Key)
    requires Free(sys, listing, k) && SameAt(sys.sh, sys'.sh, k)
    requires forall id :: Active(sys'.scalers, id) ==>
               (Active(sys.scalers, id) && KeyOf(sys'.scalers[id].item) == KeyOf(sys.scalers[id].item)) ||
               KeyOf(sys'.scalers[id].item) != k
    ensures Free(sys', listing, k)
  {
    hide OnceIn;
  }

  lemma {:induction false} TurnKeepsFree(sys: Sys, id: nat, out: Outcome, listing: seq<ScalingInfo>, k: Key)
    requires WellKeyed(sys.sh.deny) && AllOwn(sys.scalers) && Free(sys, listing, k)
    ensures Free(After(sys, Turn(id, out)), listing, k)
  {
    hide Exec, OnceIn, After, WellKeyed;
    var ev := Turn(id, out);
    if Active(sys.scalers, id) {
      var sc := sys.scalers[id];
      OnlyOwnKey(sys.sh, sc, KeyOf(sc.item), out);
      assert After(sys, ev).sh == Exec(sys.sh, sc, out).0 by { TurnIs(sys, id, out); }
      forall j | Active(After(sys, ev).scalers, j)
        ensures Active(sys.scalers, j) && KeyOf(After(sys, ev).scalers[j].item) == KeyOf(sys.scalers[j].item)
      {
        KeysStay(sys, ev, j);
      }
      FreeStill(sys, After(sys, ev), listing, k);
    } else {
      FinishedStays(sys, id, out);
    }
  }

  lemma {:induction false} TurnIs(sys: Sys, id: nat, out: Outcome)
    requires id in sys.scalers
    ensures After(sys, Turn(id, out)).sh == Exec(sys.sh, sys.scalers[id], out).0
  {
    hide Exec;
  }

  lemma {:induction false} ReconcileKeepsFree(sys: Sys, ev: Event, listing: seq<ScalingInfo>, k: Key)
    requires WellKeyed(sys.sh.deny) && Free(sys, listing, k) && (ev.ReconcileNs? || ev.ReconcileItem?)
    requires KeyOf(ev.item) != k
    ensures Free(After(sys, ev), listing, k)
  {
    hide After, OnceIn;
    ReconcileAt(sys, ev);
    FreeStill(sys, After(sys, ev), listing, k);
  }

  lemma {:induction false} OutsideKeepsFree(sys: Sys, e: EnvMove, listing: seq<ScalingInfo>, k: Key)
    requires Free(sys, listing, k) && !e.Foreign?
    ensures Free(After(sys, Outside(e)), listing, k)
  {
    hide OnceIn, OptedIn;
    FreeStill(sys, After(sys, Outside(e)), listing, k);
  }

  /** As long as nobody reconciles its items a listing goes on matching: readiness and conditions change nothing about
      it, other items' scalers do not touch it, and a redirect finds nothing of it on the list. */
  lemma {:induction false} KeepsMatching(sys: Sys, ev: Event, listing: seq<ScalingInfo>, keys: set<Key>)
    requires Matches(sys, listing, keys) && KeepsAway(ev, keys)
    ensures Matches(After(sys, ev), listing, keys)
  {
    hide Free, After, WellKeyed, AllOwn;
    StaysKeyed(sys, ev);
    forall k | k in keys ensures Free(After(sys, ev), listing, k) {
      match ev
      case Turn(id, out) => TurnKeepsFree(sys, id, out, listing, k);
      case Outside(e) => OutsideKeepsFree(sys, e, listing, k);
      case _ => ReconcileKeepsFree(sys, ev, listing, k);
    }
  }
}

/** How many namespaces may be scaled at a time: the pass over the decisions made so far that runs again with every
    further namespace, in whatever order the map yields its entries. */
module Budget {
  import opened Items

  /** What the loop over the namespaces makes of one of them. */
  datatype Decision =
    | Undecided                         // nothing to scale: no entry, and no pass over the entries
    | StateFailed                       // its state cannot be read: an entry not to be scaled, and no pass
    | Refused                           // the quotas have no room: no entry
    | QuotaFailed                       // the quotas cannot be read: an entry not to be scaled
    | Judged(wants: bool, busy: bool)   // an entry, to be scaled if it wants; busy if any of its items is being scaled

  /** One namespace, and the order in which the pass after it meets the entries. */
  datatype Round = Round(ns: string, decision: Decision, order: seq<string>)

  /** scale: the entries and whether they are to be scaled. busy and counted: numberNsbeingScaled and numberNsToScale.
      */
  datatype Tally = Tally(scale: map<string, bool>, busy: nat, counted: nat)

  datatype Pass = Pass(scale: map<string, bool>, left: int, counted: nat)

  function Max0(n: int): nat {
    if n < 0 then 0 else n
  }

  function Chosen(scale: map<string, bool>): set<string> {
    set ns | ns in scale && scale[ns]
  }

  /** One entry of the pass. */
  function Visit(p: Pass, ns: string): Pass
    requires ns in p.scale
  {
    var left := if p.scale[ns] then p.left - 1 else p.left;
    Pass(if left < 0 then p.scale[ns := false] else p.scale, left, if p.scale[ns] then p.counted + 1 else p.counted)
  }

  function Visits(p: Pass, order: seq<string>): (r: Pass)
    requires forall i :: 0 <= i < |order| ==> order[i] in p.scale
    ensures r.scale.Keys == p.scale.Keys
  {
    if order == [] then p else Visit(Visits(p, order[..|order| - 1]), order[|order| - 1])
  }

  ghost predicate Distinct(order: seq<string>) {
    forall i, j :: 0 <= i < j < |order| ==> order[i] != order[j]
  }

  function Met(order: seq<string>): set<string> {
    set ns | ns in order
  }

  lemma {:induction false} MetSnoc(order: seq<string>)
    requires order != [] && Distinct(order)
    ensures var n := |order| - 1; order[n] !in order[..n] && Met(order) == Met(order[..n]) + {order[n]}
  {
    var n := |order| - 1;
    assert order == order[..n] + [order[n]];
  }

  lemma {:induction false} MeetOne(scale: map<string, bool>, met: set<string>, ns: string)
    requires ns in scale && ns !in met
    ensures |Chosen(scale) * (met + {ns})| == |Chosen(scale) * met| + if scale[ns] then 1 else 0
  {
    if scale[ns] {
      assert Chosen(scale) * (met + {ns}) == Chosen(scale) * met + {ns};
    } else {
      assert Chosen(scale) * (met + {ns}) == Chosen(scale) * met;
    }
  }

  /** What one entry of the pass does to those met before it and to itself. */
  lemma {:induction false} VisitOne(p: Pass, met: set<string>, ns: string)
    requires ns in p.scale && ns !in met
    ensures var r := Visit(p, ns);
            Chosen(r.scale) <= Chosen(p.scale) && Chosen(r.scale) * met == Chosen(p.scale) * met &&
            |Chosen(r.scale) * (met + {ns})| == |Chosen(p.scale) * met| + if p.scale[ns] && p.left > 0 then 1 else 0
  {
    MeetOne(Visit(p, ns).scale, met, ns);
  }

  lemma {:induction false} NotMetYet(p: Pass, order: seq<string>, ns: string)
    requires ns in p.scale && ns !in order && forall i :: 0 <= i < |order| ==> order[i] in p.scale
    ensures Visits(p, order).scale[ns] == p.scale[ns]
  {
    if order != [] {
      assert order == order[..|order| - 1] + [order[|order| - 1]];
      NotMetYet(p, order[..|order| - 1], ns);
    }
  }

  /** Half way through a pass: of the chosen entries met, as many as the budget allows are still chosen. */
  lemma {:induction false} HalfWay(p: Pass, order: seq<string>)
    requires Distinct(order) && forall i :: 0 <= i < |order| ==> order[i] in p.scale
    ensures var r, before := Visits(p, order), |Chosen(p.scale) * Met(order)|;
            r.left == p.left - before && r.counted == p.counted + before &&
            Chosen(r.scale) <= Chosen(p.scale) && |Chosen(r.scale) * Met(order)| == Min(before, Max0(p.left))
  {
    hide Chosen;
    if order == [] {
      assert Met(order) == {};
    } else {
      var n := |order| - 1;
      var ns, early := order[n], order[..n];
      HalfWay(p, early);
      MetSnoc(order);
      hide Met;
      NotMetYet(p, early, ns);
      MeetOne(p.scale, Met(early), ns);
      VisitOne(Visits(p, early), Met(early), ns);
    }
  }

  ghost predicate Orders(order: seq<string>, scale: map<string, bool>) {
    Distinct(order) && (forall i :: 0 <= i < |order| ==> order[i] in scale) && forall ns :: ns in scale ==> ns in order
  }

  /** A whole pass. */
  lemma {:induction false} WholePass(p: Pass, order: seq<string>)
    requires Orders(order, p.scale)
    ensures var r := Visits(p, order);
            r.counted == p.counted + |Chosen(p.scale)| && Chosen(r.scale) <= Chosen(p.scale) &&
            |Chosen(r.scale)| == Min(|Chosen(p.scale)|, Max0(p.left))
  {
    HalfWay(p, order);
    var r := Visits(p, order);
    assert Chosen(p.scale) * Met(order) == Chosen(p.scale);
    assert Chosen(r.scale) * Met(order) == Chosen(r.scale);
  }

  // ----- the loop over the namespaces

  predicate RunsPass(d: Decision) {
    !d.Undecided? && !d.StateFailed?
  }

  /** The entries the pass of a round meets. */
  function Entries(t: Tally, round: Round): map<string, bool> {
    match round.decision
    case Undecided => t.scale
    case Refused => t.scale
    case StateFailed => t.scale[round.ns := false]
    case QuotaFailed => t.scale[round.ns := false]
    case Judged(wants, _) => t.scale[round.ns := wants]
  }

  function BusyAfter(busy: nat, d: Decision): nat {
    if d.Judged? && d.busy then busy + 1 else busy
  }

  ghost predicate Proper(t: Tally, round: Round) {
    round.ns !in t.scale && (RunsPass(round.decision) ==> Orders(round.order, Entries(t, round)))
  }

  ghost function NextTally(t: Tally, round: Round, max: int): Tally
    requires Proper(t, round)
  {
    var scale, busy := Entries(t, round), BusyAfter(t.busy, round.decision);
    if RunsPass(round.decision) then
      var p := Visits(Pass(scale, max - busy, t.counted), round.order);
      Tally(p.scale, busy, p.counted)
    else Tally(scale, busy, t.counted)
  }

  /** The round of a decision that runs a pass, put together from its parts. */
  lemma {:induction false} NextAfterPass(
      t: Tally, ns: string, decision: Decision, max: int, scale: map<string, bool>, busy: nat, order: seq<string>)
    requires ns !in t.scale && !decision.Undecided? && !decision.StateFailed?
    requires scale == Entries(t, Round(ns, decision, [])) && busy == BusyAfter(t.busy, decision) && Orders(order, scale)
    ensures var round, p := Round(ns, decision, order), Visits(Pass(scale, max - busy, t.counted), order);
            Proper(t, round) && NextTally(t, round, max) == Tally(p.scale, busy, p.counted)
  {
    hide Orders, Visits;
  }

  const START := Tally(map[], 0, 0)

  /** Every run of the loop: any namespaces, any decisions, any orders. */
  ghost predicate ProperRun(rounds: seq<Round>, max: int)
    decreases |rounds|, 0
  {
    rounds == [] ||
    var n := |rounds| - 1;
    ProperRun(rounds[..n], max) && Proper(After(rounds[..n], max), rounds[n])
  }

  ghost function After(rounds: seq<Round>, max: int): Tally
    requires ProperRun(rounds, max)
    decreases |rounds|, 1
  {
    if rounds == [] then START
    else
      var n := |rounds| - 1;
      NextTally(After(rounds[..n], max), rounds[n], max)
  }

  function Wants(round: Round): set<string> {
    if round.decision.Judged? && round.decision.wants then {round.ns} else {}
  }

  function Wanted(rounds: seq<Round>): set<string> {
    if rounds == [] then {} else Wanted(rounds[..|rounds| - 1]) + Wants(rounds[|rounds| - 1])
  }

  /** How often a pass met an entry still chosen from an earlier round. */
  ghost function Recounts(rounds: seq<Round>, max: int): nat
    requires ProperRun(rounds, max)
  {
    if rounds == [] then 0
    else
      var n := |rounds| - 1;
      Recounts(rounds[..n], max) + if RunsPass(rounds[n].decision) then |Chosen(After(rounds[..n], max).scale)| else 0
  }

  lemma {:induction false} OneRound(t: Tally, round: Round, max: int)
    requires Proper(t, round)
    ensures var t', entries := NextTally(t, round, max), Chosen(t.scale) + Wants(round);
            t'.scale.Keys == Entries(t, round).Keys && t.busy <= t'.busy && Chosen(t'.scale) <= entries &&
            |entries| == |Chosen(t.scale)| + |Wants(round)| &&
            if RunsPass(round.decision)
            then t'.counted == t.counted + |entries| && |Chosen(t'.scale)| == Min(|entries|, Max0(max - t'.busy))
            else t'.counted == t.counted && t'.busy == t.busy &&
                 Chosen(t'.scale) == Chosen(t.scale) && Wants(round) == {}
  {
    var scale := Entries(t, round);
    assert Chosen(scale) == Chosen(t.scale) + Wants(round);
    if RunsPass(round.decision) {
      WholePass(Pass(scale, max - BusyAfter(t.busy, round.decision), t.counted), round.order);
    }
    hide Visits;
  }

  lemma {:induction false} NewKey(t: Tally, round: Round, max: int)
    requires Proper(t, round)
    ensures Wants(round) * t.scale.Keys == {} && t.scale.Keys + Wants(round) <= NextTally(t, round, max).scale.Keys
  {
    OneRound(t, round, max);
    hide NextTally;
  }

  /** The decisions say which namespaces want scaling. */
  lemma {:induction false} WantedIff(rounds: seq<Round>, ns: string)
    ensures ns in Wanted(rounds) <==>
            exists i :: 0 <= i < |rounds| && rounds[i].ns == ns &&
                        rounds[i].decision.Judged? && rounds[i].decision.wants
  {
    if rounds != [] {
      var n := |rounds| - 1;
      var before := rounds[..n];
      WantedIff(before, ns);
      assert forall i :: 0 <= i < n ==> before[i] == rounds[i];
      if ns in Wanted(before) {
        var i :| 0 <= i < n && before[i].ns == ns && before[i].decision.Judged? && before[i].decision.wants;
        assert rounds[i].ns == ns;
      }
    }
  }

  /** The rounds of busy namespaces. */
  function BusyRounds(rounds: seq<Round>): set<int> {
    set i | 0 <= i < |rounds| && rounds[i].decision.Judged? && rounds[i].decision.busy
  }

  lemma {:induction false} BusyRoundsSnoc(rounds: seq<Round>)
    requires rounds != []
    ensures var n := |rounds| - 1;
            |BusyRounds(rounds)| ==
            |BusyRounds(rounds[..n])| + if rounds[n].decision.Judged? && rounds[n].decision.busy then 1 else 0
  {
    var n := |rounds| - 1;
    var was := BusyRounds(rounds[..n]);
    assert forall i :: 0 <= i < n ==> rounds[..n][i] == rounds[i];
    if rounds[n].decision.Judged? && rounds[n].decision.busy {
      assert BusyRounds(rounds) == was + {n};
    } else {
      assert BusyRounds(rounds) == was;
    }
  }

  /** And the number being scaled is the number of busy ones. */
  lemma {:induction false} BusyIsCounted(rounds: seq<Round>, max: int)
    requires ProperRun(rounds, max)
    ensures After(rounds, max).busy == |BusyRounds(rounds)|
  {
    hide Visits, Entries, BusyRounds, Orders;
    if rounds != [] {
      BusyIsCounted(rounds[..|rounds| - 1], max);
      BusyRoundsSnoc(rounds);
    } else {
      assert BusyRounds(rounds) == {} by { NoBusyRounds(); }
    }
  }

  lemma {:induction false} NoBusyRounds()
    ensures BusyRounds([]) == {}
  {
  }

  /** Within the budget, and nobody put off while there is room. */
  ghost predicate InBudget(t: Tally, wanted: set<string>, max: int) {
    Chosen(t.scale) <= wanted <= t.scale.Keys && |Chosen(t.scale)| <= Max0(max - t.busy) &&
    (Chosen(t.scale) != wanted ==> |Chosen(t.scale)| == Max0(max - t.busy))
  }

  /** The same of sets alone, when the room shrinks and more come to want it. */
  lemma {:induction false} RoomShrinks(
      chosen: set<string>, wanted: set<string>, more: set<string>, now: set<string>, room: nat, room': nat)
    requires chosen <= wanted && wanted * more == {} && |chosen| <= room && (chosen != wanted ==> |chosen| == room)
    requires room' <= room && now <= chosen + more && |now| == Min(|chosen + more|, room')
    ensures now <= wanted + more && |now| <= room' && (now != wanted + more ==> |now| == room')
  {
    assert chosen * more == {};
    if |now| == |chosen + more| && now != chosen + more {
      var ns :| ns in chosen + more && ns !in now;
      Smaller(now, (chosen + more) - {ns});
    }
  }

  lemma {:induction false} StaysInBudget(t: Tally, wanted: set<string>, round: Round, max: int)
    requires Proper(t, round) && InBudget(t, wanted, max)
    ensures InBudget(NextTally(t, round, max), wanted + Wants(round), max)
    ensures |wanted + Wants(round)| == |wanted| + |Wants(round)|
  {
    hide NextTally, Chosen, Entries, Wants, Proper;
    OneRound(t, round, max);
    NewKey(t, round, max);
    var t', more := NextTally(t, round, max), Wants(round);
    assert wanted * more == {};
    if RunsPass(round.decision) {
      RoomShrinks(Chosen(t.scale), wanted, more, Chosen(t'.scale), Max0(max - t.busy), Max0(max - t'.busy));
    } else {
      assert wanted + more == wanted;
    }
  }

  /** The concurrency budget, for every order of namespaces and entries. At the end, as after every namespace, no more
      are to be scaled than the budget has room for; only some that wanted to be; if any that wanted was put off, the
      budget is used up; and the counter is the number of those that wanted plus the recounts. */
  lemma {:induction false} BudgetHolds(rounds: seq<Round>, max: int)
    requires ProperRun(rounds, max)
    ensures var t := After(rounds, max);
            |Chosen(t.scale)| <= Max0(max - t.busy) &&
            Chosen(t.scale) <= Wanted(rounds) <= t.scale.Keys &&
            (Chosen(t.scale) != Wanted(rounds) ==> |Chosen(t.scale)| == Max0(max - t.busy)) &&
            t.counted == |Wanted(rounds)| + Recounts(rounds, max)
  {
    hide NextTally, Chosen, Entries, Wants, Proper;
    if rounds != [] {
      var n := |rounds| - 1;
      BudgetHolds(rounds[..n], max);
      var t := After(rounds[..n], max);
      OneRound(t, rounds[n], max);
      StaysInBudget(t, Wanted(rounds[..n]), rounds[n], max);
    } else {
      NoneChosen();
    }
  }

  lemma {:induction false} NoneChosen()
    ensures Chosen(START.scale) == {}
  {
  }

  /** Nothing put off before and as many chosen as there were: nothing put off now. */
  lemma {:induction false} KeptAll(chosen: set<string>, wanted: set<string>, more: set<string>, now: set<string>,
      keys: set<string>)
    requires chosen <= wanted <= keys && more * keys == {} && now <= chosen + more
    ensures |wanted + more| == |wanted| + |more|
    ensures chosen == wanted && |now| == |chosen + more| ==> now == wanted + more
  {
    assert wanted * more == {};
    if now != chosen + more {
      var ns :| ns in chosen + more && ns !in now;
      Smaller(now, (chosen + more) - {ns});
    }
  }

  lemma {:induction false} Smaller(a: set<string>, b: set<string>)
    requires a <= b
    ensures |a| <= |b|
  {
    assert b == a + (b - a);
  }

  /** How many are chosen does not depend on any order: the decisions alone tell. */
  function HowMany(decisions: seq<Decision>, max: int): nat {
    if decisions == [] then 0
    else
      var n := |decisions| - 1;
      var d := decisions[n];
      if !RunsPass(d) then HowMany(decisions[..n], max)
      else Min(HowMany(decisions[..n], max) + (if d.Judged? && d.wants then 1 else 0), Max0(max - Busy(decisions)))
  }

  function Busy(decisions: seq<Decision>): nat {
    if decisions == [] then 0 else BusyAfter(Busy(decisions[..|decisions| - 1]), decisions[|decisions| - 1])
  }

  function Decisions(rounds: seq<Round>): (r: seq<Decision>)
    ensures |r| == |rounds| && forall i :: 0 <= i < |rounds| ==> r[i] == rounds[i].decision
  {
    if rounds == [] then [] else Decisions(rounds[..|rounds| - 1]) + [rounds[|rounds| - 1].decision]
  }

  lemma {:induction false} CountIsOrderFree(rounds: seq<Round>, max: int)
    requires ProperRun(rounds, max)
    ensures |Chosen(After(rounds, max).scale)| == HowMany(Decisions(rounds), max)
    ensures After(rounds, max).busy == Busy(Decisions(rounds))
  {
    if rounds != [] {
      var n := |rounds| - 1;
      CountIsOrderFree(rounds[..n], max);
      assert Decisions(rounds)[..n] == Decisions(rounds[..n]);
      OneRound(After(rounds[..n], max), rounds[n], max);
      hide Visits, Chosen;
    } else {
      NoneChosen();
    }
  }

  /** What is left of the counter when every chosen namespace is launched. */
  ghost function Leftover(rounds: seq<Round>, max: int): int
    requires ProperRun(rounds, max)
  {
    After(rounds, max).counted - |Chosen(After(rounds, max).scale)|
  }

  /** A live run asks to be triggered again if and only if a namespace that wanted to be scaled was put off, or a pass
      met one still chosen from an earlier round. So no namespace put off is forgotten. */
  lemma {:induction false} RetriggerIff(rounds: seq<Round>, max: int)
    requires ProperRun(rounds, max)
    ensures Leftover(rounds, max) > 0 <==>
            Chosen(After(rounds, max).scale) != Wanted(rounds) || Recounts(rounds, max) > 0
  {
    BudgetHolds(rounds, max);
    hide Recounts, Wanted, After, Chosen;
    var chosen, wanted := Chosen(After(rounds, max).scale), Wanted(rounds);
    Smaller(chosen, wanted);
    KeptAll(wanted, wanted, {}, chosen, wanted);
  }

  lemma {:induction false} FirstTwo(a: string, b: string, max: int)
    requires a != b && max >= 2
    ensures var wants := Judged(true, false);
            var first, second := Round(a, wants, [a]), Round(b, wants, [a, b]);
            Proper(START, first) && Proper(NextTally(START, first, max), second) &&
            Chosen(NextTally(START, first, max).scale) == {a} && NextTally(START, first, max).busy == 0 &&
            Chosen(NextTally(NextTally(START, first, max), second, max).scale) == {a, b}
  {
    var wants := Judged(true, false);
    var first, second := Round(a, wants, [a]), Round(b, wants, [a, b]);
    hide Visits;
    NoneChosen();
    assert Proper(START, first);
    OneRound(START, first, max);
    var t := NextTally(START, first, max);
    Whole({a}, Chosen(t.scale));
    assert Proper(t, second);
    OneRound(t, second, max);
    Whole({a, b}, Chosen(NextTally(t, second, max).scale));
  }

  /** The second case is real: two namespaces, room for both, both launched, and a trigger all the same. */
  lemma {:induction false} TriggeredForNothing(a: string, b: string, max: int)
    requires a != b && max >= 2
    ensures var wants := Judged(true, false);
            var rounds := [Round(a, wants, [a]), Round(b, wants, [a, b])];
            ProperRun(rounds, max) && Chosen(After(rounds, max).scale) == Wanted(rounds) == {a, b} &&
                Leftover(rounds, max) > 0
  {
    var wants := Judged(true, false);
    var first, second := Round(a, wants, [a]), Round(b, wants, [a, b]);
    var rounds := [first, second];
    assert rounds[..1] == [first] && rounds[..1][..0] == [];
    FirstTwo(a, b, max);
    hide NextTally, Proper, Chosen;
    assert After([first], max) == NextTally(START, first, max) &&
           After(rounds, max) == NextTally(After([first], max), second, max);
    assert Wanted([first]) == {a};
    RetriggerIff(rounds, max);
  }

  lemma {:induction false} Whole(all: set<string>, part: set<string>)
    requires part <= all && |part| == |all|
    ensures part == all
  {
    KeptAll(all, all, {}, part, all);
  }
}

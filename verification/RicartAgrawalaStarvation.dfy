/**
 A wait is bounded although others keep asking.  As long as all REQUESTs of the waiter have been
 treated, every step, new requests of other nodes included, uses up a fixed budget; only a
 REQUEST that stays in its channel can make the waiter wait longer, and there is at most one for
 each peer.
*/
module RicartAgrawalaStarvation {
  import opened Numbers
  import opened RicartAgrawalaSystem
  import opened RicartAgrawalaProgress
  import opened RicartAgrawalaFairness

  /** No REQUEST of node i is on its way. */
  ghost predicate Heard(s: State, i: nat) {
    Shaped(s) && i < |s.nodes| && forall j :: 0 <= j < |s.nodes| ==> Requests(s.net[i][j]) == 0
  }

  /** The steps of a run that are taken while no REQUEST of node i is on its way. */
  ghost function HeardSteps(s: State, es: seq<Event>, i: nat): nat
    requires Run(s, es)
    decreases |es|
  {
    if es == [] then 0 else Ind(Heard(s, i)) + HeardSteps(Apply(s, es[0]), es[1..], i)
  }

  // ---------------------------------------------------------------- how often others may still ask

  /** How often y can ask before the waiting x enters, once y has treated x's REQUEST. */
  function AsksLeft(p: Pair): nat {
    Ind(p.y.defers) + Ind(!p.y.using && !p.y.waiting)
  }

  lemma AsksLeftOwnStep(p: Pair, act: Act)
    requires PairInv(p) && Able(p, act) && p.x.waiting && !act.AEnter?
    ensures AsksLeft(Do(p, act)) == AsksLeft(p) <= 1
  {
  }

  lemma AsksLeftOtherStep(p: Pair, act: Act)
    requires PairInv(p) && Able(Flip(p), act) && p.x.waiting && Requests(p.xy) == 0
    ensures Ind(act.AAsk?) + AsksLeft(Flip(Do(Flip(p), act))) <= AsksLeft(p)
  {
  }

  ghost function AsksLeftOf(s: State, i: nat, j: nat): nat {
    if Shaped(s) && i < |s.nodes| && j < |s.nodes| && i != j then AsksLeft(View(s, i, j)) else 0
  }

  lemma AsksLeftStep(s: State, e: Event, i: nat, j: nat)
    requires Inv(s) && Enabled(s, e) && Heard(s, i) && s.nodes[i].waiting && e != Enter(i)
    requires i < |s.nodes| && j < |s.nodes|
    ensures Ind(e == Ask(j)) + AsksLeftOf(Apply(s, e), i, j) <= AsksLeftOf(s, i, j) <= 1
  {
    if i != j {
      Project(s, e, i, j);
      Project(s, e, j, i);
      assert PairInv(View(s, i, j)) && PairInv(View(s, j, i));
      if i == Actor(e) {
        AsksLeftOwnStep(View(s, i, j), ActOn(s, e, j));
      } else if j == Actor(e) {
        AsksLeftOtherStep(View(s, i, j), ActOn(s, e, i));
      }
    }
  }

  ghost function AllAsksLeft(s: State, i: nat): nat {
    Sum(|s.nodes|, j => AsksLeftOf(s, i, j))
  }

  lemma AllAsksLeftStep(s: State, e: Event, i: nat)
    requires Inv(s) && Enabled(s, e) && Heard(s, i) && s.nodes[i].waiting && e != Enter(i)
    ensures Ind(e.Ask?) + AllAsksLeft(Apply(s, e), i) <= AllAsksLeft(s, i)
  {
    var s' := Apply(s, e);
    var f, g := (j: nat) => AsksLeftOf(s', i, j), (j: nat) => AsksLeftOf(s, i, j);
    forall j: nat | j < |s.nodes| ensures Ind(e == Ask(j)) + f(j) <= g(j) {
      AsksLeftStep(s, e, i, j);
    }
    if e.Ask? {
      assert f(e.i) < g(e.i);
    }
    SumMonotone(|s.nodes|, f, g);
    assert AllAsksLeft(s', i) == Sum(|s.nodes|, f) && AllAsksLeft(s, i) == Sum(|s.nodes|, g);
  }

  lemma AllAsksLeftBound(s: State, i: nat)
    requires Inv(s) && i < |s.nodes| && Heard(s, i) && s.nodes[i].waiting
    ensures AllAsksLeft(s, i) <= |s.nodes| - 1
  {
    var f := (j: nat) => AsksLeftOf(s, i, j);
    forall j: nat | j < |s.nodes| ensures f(j) <= if j == i then 0 else 1 {
      if j != i {
        assert PairInv(View(s, i, j));
      }
    }
    SumBound(|s.nodes|, f, 1, i);
    assert AllAsksLeft(s, i) == Sum(|s.nodes|, f);
  }

  // ---------------------------------------------------------------- the budget of a wait

  /** Steps that can be taken before the next new request. */
  function Round(n: nat): nat { MaxWork(n) + 1 }

  // c, k times over; by recursion, so that proofs need no multiplication.
  function Times(c: nat, k: nat): nat { if k == 0 then 0 else c + Times(c, k - 1) }

  lemma {:induction false} TimesMonotone(c: nat, a: nat, b: nat)
    requires a <= b
    ensures Times(c, a) <= Times(c, b)
    ensures a < b ==> Times(c, a) + c <= Times(c, b)
  {
    if a < b {
      TimesMonotone(c, a, b - 1);
    }
  }

  lemma {:induction false} TimesIsProduct(c: nat, k: nat)
    ensures Times(c, k) == c * k
  {
    if k > 0 {
      TimesIsProduct(c, k - 1);
    }
  }

  /** Steps that can be taken while everything the waiter has sent stays treated. */
  ghost function Budget(s: State, i: nat): nat {
    Work(s) + Times(Round(|s.nodes|), AllAsksLeft(s, i))
  }

  lemma BudgetStep(s: State, e: Event, i: nat)
    requires Inv(s) && Enabled(s, e) && Heard(s, i) && s.nodes[i].waiting && e != Enter(i)
    ensures Budget(Apply(s, e), i) < Budget(s, i)
  {
    var s' := Apply(s, e);
    var c, a, a' := Round(|s.nodes|), AllAsksLeft(s, i), AllAsksLeft(s', i);
    AllAsksLeftStep(s, e, i);
    StepInv(s, e);
    if e.Ask? {
      WorkBound(s');
    } else {
      WorkStep(s, e);
    }
    TimesMonotone(c, a', a);
  }

  /** A stretch of treated REQUESTs: n-1 new requests of others, and a round for each and before the first. */
  function Stretch(n: nat): nat { Times(Round(n), n) }

  lemma BudgetBound(s: State, i: nat)
    requires Inv(s) && Heard(s, i) && s.nodes[i].waiting
    ensures Budget(s, i) <= Stretch(|s.nodes|)
  {
    var n := |s.nodes|;
    WorkBound(s);
    AllAsksLeftBound(s, i);
    TimesMonotone(Round(n), AllAsksLeft(s, i), n);
  }

  // ---------------------------------------------------------------- permissions that may still be yielded

  ghost function LeftOverOf(s: State, i: nat, j: nat): nat {
    if Shaped(s) && i < |s.nodes| && j < |s.nodes| && i != j then Ind(LeftOver(View(s, i, j))) else 0
  }

  /** Permissions of earlier waits that i relies on. */
  ghost function LeftOvers(s: State, i: nat): nat {
    Sum(|s.nodes|, j => LeftOverOf(s, i, j))
  }

  lemma RequestsSent(s: State, e: Event, i: nat, j: nat)
    requires Inv(s) && Enabled(s, e) && i < |s.nodes| && j < |s.nodes|
    ensures Requests(Apply(s, e).net[i][j]) <= Requests(s.net[i][j]) + Sends(s, e, i, j)
  {
    var c := s.net[i][j];
    if i == Actor(e) {
      var out := NodeStep(s, e).out[j];
      CountsAppend(c, out);
      if c != [] {
        assert c == [c[0]] + c[1..];
        CountsAppend(c[1..], out);
      }
    }
  }

  lemma LeftOverOfStep(s: State, e: Event, i: nat, j: nat)
    requires Inv(s) && Enabled(s, e) && i < |s.nodes| && j < |s.nodes|
    requires s.nodes[i].waiting && e != Enter(i)
    ensures Shaped(Apply(s, e))
    ensures LeftOverOf(Apply(s, e), i, j) <= LeftOverOf(s, i, j)
    ensures Requests(s.net[i][j]) == 0 < Requests(Apply(s, e).net[i][j]) ==>
      LeftOverOf(Apply(s, e), i, j) < LeftOverOf(s, i, j)
  {
    StepInv(s, e);
    if j != i {
      LeftOverStep(s, e, i, j);
      RequestsSent(s, e, i, j);
    }
  }

  lemma CompareLeftOvers(s: State, s': State, i: nat)
    requires Shaped(s) && Shaped(s') && i < |s.nodes| == |s'.nodes|
    requires forall j: nat :: j < |s.nodes| ==> LeftOverOf(s', i, j) <= LeftOverOf(s, i, j)
    requires forall j: nat :: j < |s.nodes| && Requests(s.net[i][j]) == 0 < Requests(s'.net[i][j]) ==>
      LeftOverOf(s', i, j) < LeftOverOf(s, i, j)
    ensures LeftOvers(s', i) <= LeftOvers(s, i)
    ensures Heard(s, i) && !Heard(s', i) ==> LeftOvers(s', i) < LeftOvers(s, i)
  {
    var f, g := (j: nat) => LeftOverOf(s', i, j), (j: nat) => LeftOverOf(s, i, j);
    if Heard(s, i) && !Heard(s', i) {
      var j :| 0 <= j < |s.nodes| && Requests(s'.net[i][j]) != 0;
      assert f(j) < g(j);
    }
    SumMonotone(|s.nodes|, f, g);
    assert LeftOvers(s', i) == Sum(|s.nodes|, f) && LeftOvers(s, i) == Sum(|s.nodes|, g);
  }

  /** While i waits it relies on no further old permission, and on one less when a REQUEST of its gets under way. */
  lemma LeftOversStep(s: State, e: Event, i: nat)
    requires Inv(s) && Enabled(s, e) && i < |s.nodes| && s.nodes[i].waiting && e != Enter(i)
    ensures LeftOvers(Apply(s, e), i) <= LeftOvers(s, i)
    ensures Heard(s, i) && !Heard(Apply(s, e), i) ==> LeftOvers(Apply(s, e), i) < LeftOvers(s, i)
  {
    StepInv(s, e);
    var s' := Apply(s, e);
    forall j: nat | j < |s.nodes|
      ensures LeftOverOf(s', i, j) <= LeftOverOf(s, i, j)
      ensures Requests(s.net[i][j]) == 0 < Requests(s'.net[i][j]) ==> LeftOverOf(s', i, j) < LeftOverOf(s, i, j)
    {
      LeftOverOfStep(s, e, i, j);
    }
    CompareLeftOvers(s, s', i);
  }

  lemma LeftOversBound(s: State, i: nat)
    requires Inv(s) && i < |s.nodes|
    ensures LeftOvers(s, i) <= |s.nodes| - 1
  {
    var f := (j: nat) => LeftOverOf(s, i, j);
    SumBound(|s.nodes|, f, 1, i);
    assert LeftOvers(s, i) == Sum(|s.nodes|, f);
  }

  // ---------------------------------------------------------------- the whole wait

  /** Steps with all REQUESTs treated that i's wait can still have. */
  ghost function WaitLeft(s: State, i: nat): nat
    requires i < |s.nodes|
  {
    Times(Stretch(|s.nodes|), LeftOvers(s, i)) + if Heard(s, i) then Budget(s, i) else Stretch(|s.nodes|)
  }

  lemma WaitLeftStep(s: State, e: Event, i: nat)
    requires Inv(s) && Enabled(s, e) && i < |s.nodes| && s.nodes[i].waiting && e != Enter(i)
    ensures Apply(s, e).nodes[i].waiting
    ensures Ind(Heard(s, i)) + WaitLeft(Apply(s, e), i) <= WaitLeft(s, i)
  {
    var s' := Apply(s, e);
    var c, l, l' := Stretch(|s.nodes|), LeftOvers(s, i), LeftOvers(s', i);
    StepInv(s, e);
    assert s'.nodes[i].waiting;
    LeftOversStep(s, e, i);
    TimesMonotone(c, l', l);
    if Heard(s', i) { BudgetBound(s', i); }
    if Heard(s, i) { BudgetStep(s, e, i); }
  }

  lemma {:induction false} WaitRun(s: State, es: seq<Event>, i: nat)
    requires Inv(s) && Run(s, es) && i < |s.nodes| && s.nodes[i].waiting && Enter(i) !in es
    ensures HeardSteps(s, es, i) <= WaitLeft(s, i)
    ensures Inv(After(s, es)) && |After(s, es).nodes| == |s.nodes| && After(s, es).nodes[i].waiting
    decreases |es|
  {
    if es != [] {
      StepInv(s, es[0]);
      WaitLeftStep(s, es[0], i);
      WaitRun(Apply(s, es[0]), es[1..], i);
    }
  }

  /**
   However long a run is and whatever the others ask, a node that has not entered yet has waited
   through at most a fixed number of steps with all its REQUESTs treated; and something other
   than a new request can still be done.
  */
  lemma WaitIsBounded(s: State, es: seq<Event>, i: nat)
    requires Inv(s) && Run(s, es) && i < |s.nodes| && s.nodes[i].waiting && Enter(i) !in es
    ensures HeardSteps(s, es, i) <= Round(|s.nodes|) * |s.nodes| * |s.nodes|
    ensures exists e :: Enabled(After(s, es), e) && !e.Ask?
  {
    var n := |s.nodes|;
    WaitRun(s, es, i);
    LeftOversBound(s, i);
    TimesMonotone(Stretch(n), LeftOvers(s, i), n);
    TimesIsProduct(Stretch(n), n);
    TimesIsProduct(Round(n), n);
    if Heard(s, i) { BudgetBound(s, i); }
    EnabledIffPending(After(s, es));
  }

  // ---------------------------------------------------------------- REQUESTs on their way

  /** The steps of a run at which a REQUEST from i to j is on its way. */
  ghost function OnItsWay(s: State, es: seq<Event>, i: nat, j: nat): nat
    requires Shaped(s) && Run(s, es) && i < |s.nodes| && j < |s.nodes|
    decreases |es|
  {
    if es == [] then 0
    else Ind(Requests(s.net[i][j]) > 0) + (Keeps(s, es[0]); OnItsWay(Apply(s, es[0]), es[1..], i, j))
  }

  /** Every REQUEST from i to j is taken within d steps; age is how long the present one has been on its way. */
  ghost predicate TakenWithin(s: State, es: seq<Event>, i: nat, j: nat, d: nat, age: nat)
    requires Shaped(s) && Run(s, es) && i < |s.nodes| && j < |s.nodes|
    decreases |es|
  {
    es == [] ||
    var pending := Requests(s.net[i][j]) > 0;
    (pending ==> age < d) &&
    (Keeps(s, es[0]); TakenWithin(Apply(s, es[0]), es[1..], i, j, d, if pending then age + 1 else 0))
  }

  /** How long i's REQUESTs to j can still be on their way in this wait. */
  ghost function WayLeft(s: State, i: nat, j: nat, d: nat, age: nat): int
    requires Shaped(s) && i < |s.nodes| && j < |s.nodes|
  {
    if Requests(s.net[i][j]) > 0 then d - age else if LeftOverOf(s, i, j) > 0 then d else 0
  }

  lemma WayLeftStep(s: State, e: Event, i: nat, j: nat, d: nat, age: nat)
    requires Inv(s) && Enabled(s, e) && i < |s.nodes| && j < |s.nodes| && i != j
    requires s.nodes[i].waiting && e != Enter(i) && (Requests(s.net[i][j]) > 0 ==> age < d)
    ensures Shaped(Apply(s, e))
    ensures var pending := Requests(s.net[i][j]) > 0;
      Ind(pending) + WayLeft(Apply(s, e), i, j, d, if pending then age + 1 else 0) <= WayLeft(s, i, j, d, age)
  {
    Keeps(s, e);
    LeftOverStep(s, e, i, j);
    RequestsSent(s, e, i, j);
    assert PairInv(View(s, i, j));
  }

  lemma {:induction false} WayIsShort(s: State, es: seq<Event>, i: nat, j: nat, d: nat, age: nat)
    requires Inv(s) && Run(s, es) && i < |s.nodes| && j < |s.nodes| && i != j
    requires s.nodes[i].waiting && Enter(i) !in es && TakenWithin(s, es, i, j, d, age) && age <= d
    ensures OnItsWay(s, es, i, j) <= WayLeft(s, i, j, d, age) <= d
    decreases |es|
  {
    if es != [] {
      var pending := Requests(s.net[i][j]) > 0;
      StepInv(s, es[0]);
      WayLeftStep(s, es[0], i, j, d, age);
      SendsOnlyOnYield(s, es[0], i, j);
      WayIsShort(Apply(s, es[0]), es[1..], i, j, d, if pending then age + 1 else 0);
    }
  }

  ghost function WayOf(s: State, es: seq<Event>, i: nat, j: nat): nat {
    if Shaped(s) && Run(s, es) && i < |s.nodes| && j < |s.nodes| && j != i then OnItsWay(s, es, i, j) else 0
  }

  /** At every step all REQUESTs of i are treated or one is on its way. */
  lemma {:induction false} EitherHeardOrNot(s: State, es: seq<Event>, i: nat)
    requires Inv(s) && Run(s, es) && i < |s.nodes|
    ensures |es| <= HeardSteps(s, es, i) + Sum(|s.nodes|, j => WayOf(s, es, i, j))
    decreases |es|
  {
    if es != [] {
      var s', rest := Apply(s, es[0]), es[1..];
      StepInv(s, es[0]);
      EitherHeardOrNot(s', rest, i);
      var f, g := (j: nat) => WayOf(s', rest, i, j), (j: nat) => WayOf(s, es, i, j);
      assert s.net[i][i] == [];
      if !Heard(s, i) {
        var j :| 0 <= j < |s.nodes| && Requests(s.net[i][j]) != 0;
        assert f(j) < g(j);
      }
      SumMonotone(|s.nodes|, f, g);
      assert Sum(|s.nodes|, f) == Sum(|s'.nodes|, j => WayOf(s', rest, i, j));
    }
  }

  /**
   If every REQUEST of the waiter is taken within d steps of being sent, the whole wait has at most a fixed
   number of steps, whatever the others ask.
  */
  lemma WaitEnds(s: State, es: seq<Event>, i: nat, d: nat)
    requires Inv(s) && Run(s, es) && i < |s.nodes| && s.nodes[i].waiting && Enter(i) !in es
    requires forall j: nat :: j < |s.nodes| && j != i ==> TakenWithin(s, es, i, j, d, 0)
    ensures |es| <= Round(|s.nodes|) * |s.nodes| * |s.nodes| + d * (|s.nodes| - 1)
  {
    WaitIsBounded(s, es, i);
    EitherHeardOrNot(s, es, i);
    var f := (j: nat) => WayOf(s, es, i, j);
    forall j: nat | j < |s.nodes| ensures f(j) <= if j == i then 0 else d {
      if j != i { WayIsShort(s, es, i, j, d, 0); }
    }
    SumBound(|s.nodes|, f, d, i);
    assert Sum(|s.nodes|, f) == Sum(|s.nodes|, j => WayOf(s, es, i, j));
  }
}

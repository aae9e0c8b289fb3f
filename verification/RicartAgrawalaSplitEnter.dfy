/**
 The source tests `can_enter_critical_section` and calls `enter_critical_section` under two
 separate acquisitions of the mutex, so handlers can run in between.  This module has the
 two as separate steps, says exactly which handler spoils the test, and proves that without it
 the split system behaves like the one-step system.
*/
module RicartAgrawalaSplitEnter {
  import opened RicartAgrawalaNode
  import opened RicartAgrawalaSystem
  import opened RicartAgrawalaFairness

  /** `checked` holds the nodes that have passed the test and have not entered yet. */
  datatype SplitState = SplitState(base: State, checked: set<nat>)

  datatype SplitEvent = Base(e: Event) | Check(i: nat) | LateEnter(i: nat)

  ghost predicate SplitEnabled(ss: SplitState, e: SplitEvent) {
    match e
    case Base(b) => !b.Enter? && Enabled(ss.base, b)
    case Check(i) => i !in ss.checked && Enabled(ss.base, Enter(i))
    case LateEnter(i) => i in ss.checked && Shaped(ss.base) && i < |ss.base.nodes|
  }

  ghost function SplitApply(ss: SplitState, e: SplitEvent): SplitState
    requires SplitEnabled(ss, e)
  {
    match e
    case Base(b) => ss.(base := Apply(ss.base, b))
    case Check(i) => ss.(checked := ss.checked + {i})
    case LateEnter(i) => SplitState(Apply(ss.base, Enter(i)), ss.checked - {i})
  }

  ghost predicate SplitRun(ss: SplitState, es: seq<SplitEvent>)
    decreases |es|
  {
    es == [] || (SplitEnabled(ss, es[0]) && SplitRun(SplitApply(ss, es[0]), es[1..]))
  }

  ghost function SplitAfter(ss: SplitState, es: seq<SplitEvent>): SplitState
    requires SplitRun(ss, es)
    decreases |es|
  {
    if es == [] then ss else SplitAfter(SplitApply(ss, es[0]), es[1..])
  }

  // ---------------------------------------------------------------- what spoils the test

  /** No node that has passed the test, and would still pass it, gives a permission up in this step. */
  ghost predicate Benign(ss: SplitState, e: SplitEvent)
    requires SplitEnabled(ss, e)
  {
    forall i: nat, j: nat :: i in ss.checked && j < |ss.base.nodes| && e.Base? && Enabled(ss.base, Enter(i)) ==>
      !YieldStep(ss.base, e.e, i, j)
  }

  ghost predicate AllBenign(ss: SplitState, es: seq<SplitEvent>)
    requires SplitRun(ss, es)
    decreases |es|
  {
    es == [] || (Benign(ss, es[0]) && AllBenign(SplitApply(ss, es[0]), es[1..]))
  }

  /** Yielding is the only step that can invalidate a test that has succeeded, and it always does. */
  lemma OnlyYieldSpoilsTest(s: State, e: Event, i: nat)
    requires Inv(s) && Enabled(s, e) && i < |s.nodes| && e != Enter(i)
    requires s.nodes[i].waiting && AllGranted(s.nodes[i], i)
    ensures Apply(s, e).nodes[i].waiting
    ensures AllGranted(Apply(s, e).nodes[i], i) <==>
      forall j: nat :: j < |s.nodes| && j != i ==> !YieldStep(s, e, i, j)
  {
    var s' := Apply(s, e);
    if e.Deliver? && e.dst == i && s.net[e.src][i][0].Request? {
      var j := e.src;
      assert j != i by { assert s.net[i][i] == []; }
      assert s'.nodes[i].A[j] <==> !YieldStep(s, e, i, j);
    }
  }

  lemma {:induction false} TakenSettles(s: State, es: seq<Event>, i: nat, j: nat)
    requires Inv(s) && Run(s, es) && i < |s.nodes| && j < |s.nodes| && i != j
    requires s.nodes[i].waiting && Enter(i) !in es
    requires SettledFor(s, i, j) || Taken(s, es, i, j) > 0
    ensures SettledFor(After(s, es), i, j)
    decreases |es|
  {
    if es != [] {
      var e := es[0];
      if e == Deliver(j, i) { assert PairInv(View(s, i, j)); }
      SendsOnlyOnYield(s, e, i, j);
      StepInv(s, e);
      if SettledFor(s, i, j) { SettledStep(s, e, i, j); }
      TakenSettles(Apply(s, e), es[1..], i, j);
    }
  }

  lemma {:induction false} SettledEntryStays(s: State, es: seq<Event>, i: nat)
    requires Inv(s) && Run(s, es) && Enter(i) !in es && Enabled(s, Enter(i))
    requires forall j: nat :: j < |s.nodes| && j != i ==> SettledFor(s, i, j)
    ensures Enabled(After(s, es), Enter(i))
    decreases |es|
  {
    if es != [] {
      var s' := Apply(s, es[0]);
      StepInv(s, es[0]);
      OnlyYieldSpoilsTest(s, es[0], i);
      forall j: nat | j < |s.nodes| && j != i ensures SettledFor(s', i, j) && s'.nodes[i].A[j] {
        SettledStep(s, es[0], i, j);
      }
      SettledEntryStays(s', es[1..], i);
    }
  }

  /**
   A test that succeeds with every permission granted during this wait stays valid until the
   entry, whatever is handled in between.
  */
  lemma FreshEntryStaysOpen(s: State, es: seq<Event>, between: seq<Event>, i: nat)
    requires Inv(s) && Run(s, [Ask(i)] + es) && i < |s.nodes|
    requires Enter(i) !in es && Enabled(After(s, [Ask(i)] + es), Enter(i))
    requires forall j: nat :: j < |s.nodes| && j != i ==> Taken(s, [Ask(i)] + es, i, j) > 0
    requires Run(After(s, [Ask(i)] + es), between) && Enter(i) !in between
    ensures Enabled(After(After(s, [Ask(i)] + es), between), Enter(i))
  {
    assert ([Ask(i)] + es)[1..] == es;
    StepInv(s, Ask(i));
    RunInv(s, [Ask(i)] + es);
    forall j: nat | j < |s.nodes| && j != i ensures SettledFor(After(s, [Ask(i)] + es), i, j) {
      assert Taken(s, [Ask(i)] + es, i, j) == Taken(Apply(s, Ask(i)), es, i, j);
      TakenSettles(Apply(s, Ask(i)), es, i, j);
    }
    SettledEntryStays(After(s, [Ask(i)] + es), between, i);
  }

  // ---------------------------------------------------------------- refinement

  function Erase(es: seq<SplitEvent>): seq<Event> {
    if es == [] then []
    else (match es[0]
          case Base(b) => [b]
          case Check(_) => []
          case LateEnter(i) => [Enter(i)]) + Erase(es[1..])
  }

  ghost predicate CheckedCanEnter(ss: SplitState) {
    Inv(ss.base) && forall i <- ss.checked :: Enabled(ss.base, Enter(i))
  }

  lemma CheckedStep(ss: SplitState, e: SplitEvent)
    requires CheckedCanEnter(ss) && SplitEnabled(ss, e) && Benign(ss, e)
    ensures CheckedCanEnter(SplitApply(ss, e))
  {
    var ss' := SplitApply(ss, e);
    var s := ss.base;
    if e.Base? || e.LateEnter? {
      var b := if e.Base? then e.e else Enter(e.i);
      StepInv(s, b);
      forall i | i in ss'.checked ensures Enabled(ss'.base, Enter(i)) {
        OnlyYieldSpoilsTest(s, b, i);
      }
    }
  }

  /** If nobody yields between its test and its entry, the split run is a run of the one-step system. */
  lemma {:induction false} SplitRefinesOneStep(ss: SplitState, es: seq<SplitEvent>)
    requires CheckedCanEnter(ss) && SplitRun(ss, es) && AllBenign(ss, es)
    ensures Run(ss.base, Erase(es))
    ensures SplitAfter(ss, es).base == After(ss.base, Erase(es))
    decreases |es|
  {
    if es != [] {
      var ss' := SplitApply(ss, es[0]);
      CheckedStep(ss, es[0]);
      SplitRefinesOneStep(ss', es[1..]);
      match es[0] {
        case Base(b) => assert Erase(es) == [b] + Erase(es[1..]);
        case Check(_) => assert Erase(es) == Erase(es[1..]);
        case LateEnter(i) => assert Erase(es) == [Enter(i)] + Erase(es[1..]);
      }
    }
  }

  lemma SplitMutualExclusion(n: nat, es: seq<SplitEvent>)
    requires SplitRun(SplitState(Init(n), {}), es) && AllBenign(SplitState(Init(n), {}), es)
    ensures var t := SplitAfter(SplitState(Init(n), {}), es).base;
      forall i, j :: 0 <= i < j < |t.nodes| ==> !(t.nodes[i].using && t.nodes[j].using)
  {
    InitInv(n);
    SplitRefinesOneStep(SplitState(Init(n), {}), es);
    MutualExclusion(n, Erase(es));
  }

  // ---------------------------------------------------------------- when it cannot happen

  /** i asks while no permission is cached: everything it holds later was granted in this wait. */
  ghost predicate AsksAfresh(ss: SplitState, e: SplitEvent)
    requires SplitEnabled(ss, e)
  {
    e.Base? && e.e.Ask? ==>
      forall j :: 0 <= j < |ss.base.nodes| && j != e.e.i ==> !ss.base.nodes[e.e.i].A[j]
  }

  ghost predicate AlwaysAsksAfresh(ss: SplitState, es: seq<SplitEvent>)
    requires SplitRun(ss, es)
    decreases |es|
  {
    es == [] || (AsksAfresh(ss, es[0]) && AlwaysAsksAfresh(SplitApply(ss, es[0]), es[1..]))
  }

  ghost predicate NothingLeftOver(s: State) {
    Shaped(s) &&
    forall i: nat, j: nat :: i < |s.nodes| && j < |s.nodes| && i != j ==> !LeftOver(View(s, i, j))
  }

  lemma SettledDoesNotYield(s: State, e: Event, i: nat, j: nat)
    requires Inv(s) && Enabled(s, e) && i < |s.nodes| && j < |s.nodes|
    requires NothingLeftOver(s)
    ensures !YieldStep(s, e, i, j)
  {
    if i != j && e == Deliver(j, i) {
      var p := View(s, i, j);
      assert PairInv(p) && !LeftOver(p);
      assert p.yx[0] in p.yx;
    }
  }

  lemma NothingLeftOverStep(s: State, e: Event)
    requires Inv(s) && Enabled(s, e) && NothingLeftOver(s)
    requires e.Ask? ==> forall j :: 0 <= j < |s.nodes| && j != e.i ==> !s.nodes[e.i].A[j]
    ensures NothingLeftOver(Apply(s, e))
  {
    StepInv(s, e);
    var s' := Apply(s, e);
    forall i: nat, j: nat | i < |s.nodes| && j < |s.nodes| && i != j
      ensures !LeftOver(View(s', i, j))
    {
      assert !LeftOver(View(s, i, j));
      if s.nodes[i].waiting && e != Enter(i) {
        LeftOverStep(s, e, i, j);
      }
    }
  }

  lemma {:induction false} FreshRunsAreBenign(ss: SplitState, es: seq<SplitEvent>)
    requires CheckedCanEnter(ss) && NothingLeftOver(ss.base)
    requires SplitRun(ss, es) && AlwaysAsksAfresh(ss, es)
    ensures AllBenign(ss, es)
    decreases |es|
  {
    if es != [] {
      var e := es[0];
      if e.Base? {
        forall i: nat, j: nat | i in ss.checked && j < |ss.base.nodes| ensures !YieldStep(ss.base, e.e, i, j) {
          SettledDoesNotYield(ss.base, e.e, i, j);
        }
        NothingLeftOverStep(ss.base, e.e);
      } else if e.LateEnter? {
        NothingLeftOverStep(ss.base, Enter(e.i));
      }
      CheckedStep(ss, e);
      FreshRunsAreBenign(SplitApply(ss, e), es[1..]);
    }
  }

  /** Entering in two steps is safe when no permission is carried over from an earlier wait. */
  lemma SplitSafeWhenAskingAfresh(n: nat, es: seq<SplitEvent>)
    requires SplitRun(SplitState(Init(n), {}), es) && AlwaysAsksAfresh(SplitState(Init(n), {}), es)
    ensures var t := SplitAfter(SplitState(Init(n), {}), es).base;
      forall i, j :: 0 <= i < j < |t.nodes| ==> !(t.nodes[i].using && t.nodes[j].using)
  {
    InitInv(n);
    FreshRunsAreBenign(SplitState(Init(n), {}), es);
    SplitMutualExclusion(n, es);
  }
}

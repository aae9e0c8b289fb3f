/**
 With the test and the entry as two steps, every system of two nodes or more has a run in which
 mutual exclusion fails.  Two nodes ask at the same time and are both served; the second one is
 left with every permission and with the same highest number as the first.  When both ask again
 their requests tie, so the second passes its test at once and must yield to the first.
*/
module RicartAgrawalaSplitNodes {
  import opened RicartAgrawalaNode
  import opened RicartAgrawalaSystem
  import opened RicartAgrawalaProgress
  import opened RicartAgrawalaFairness
  import opened RicartAgrawalaSplitEnter
  import opened RicartAgrawalaSplitDanger

  lemma {:induction false} RunToIdle(s: State) returns (es: seq<Event>)
    requires Inv(s)
    ensures Run(s, es) && NoAsk(es) && Inv(After(s, es)) && Idle(After(s, es))
    decreases Work(s)
  {
    if Idle(s) {
      es := [];
    } else {
      EnabledIffPending(s);
      var e :| Enabled(s, e) && !e.Ask?;
      StepInv(s, e);
      WorkStep(s, e);
      var rest := RunToIdle(Apply(s, e));
      es := [e] + rest;
      assert es[1..] == rest;
    }
  }

  /** Nodes 0 and 1 have each asked once, with the same number, and nobody else has. */
  ghost predicate Tie(s: State) {
    && Inv(s) && |s.nodes| >= 2
    && (forall k :: 0 <= k < |s.nodes| ==> s.nodes[k].ourSeq <= 1 && s.nodes[k].hgstSeq <= 1)
    && s.nodes[0].ourSeq == s.nodes[1].ourSeq == 1
    && (forall k :: 2 <= k < |s.nodes| ==> !s.nodes[k].waiting && !s.nodes[k].using)
    && (s.nodes[1].hgstSeq == 1 || Requests(s.net[0][1]) > 0)
    && (s.nodes[0].waiting ==> !Granted(View(s, 1, 0)))
    && (!s.nodes[1].waiting ==> AllGranted(s.nodes[1], 1))
  }

  lemma TieStart(n: nat)
    requires n >= 2
    ensures Run(Init(n), [Ask(0), Ask(1)]) && Tie(After(Init(n), [Ask(0), Ask(1)]))
  {
    InitInv(n);
    var s1 := Apply(Init(n), Ask(0));
    StepInv(Init(n), Ask(0));
    var s2 := Apply(s1, Ask(1));
    StepInv(s1, Ask(1));
    assert s2.net[0][1] == [Request(1)];
    assert [Ask(0), Ask(1)][1..] == [Ask(1)];
    assert [Ask(1)][1..] == [];
  }

  lemma TieNumbers(s: State, e: Event)
    requires Tie(s) && Enabled(s, e) && !e.Ask?
    ensures var s' := Apply(s, e);
      && (forall k :: 0 <= k < |s'.nodes| ==> s'.nodes[k].ourSeq == s.nodes[k].ourSeq && s'.nodes[k].hgstSeq <= 1)
      && (forall k :: 2 <= k < |s'.nodes| ==> !s'.nodes[k].waiting && !s'.nodes[k].using)
      && s.nodes[1].hgstSeq <= s'.nodes[1].hgstSeq
  {
    if e.Deliver? && s.net[e.src][e.dst][0].Request? { HeadIsCurrent(s, e.src, e.dst); }
  }

  /** Node 1 hears of node 0's number. */
  lemma TieHears(s: State, e: Event)
    requires Tie(s) && Enabled(s, e) && !e.Ask? && Inv(Apply(s, e))
    ensures Apply(s, e).nodes[1].hgstSeq == 1 || Requests(Apply(s, e).net[0][1]) > 0
  {
    TieNumbers(s, e);
    var c := s.net[0][1];
    if e == Deliver(0, 1) {
      assert c == [c[0]] + c[1..];
      if c[0].Request? { HeadIsCurrent(s, 0, 1); }
    } else if Actor(e) == 0 {
      CountsAppend(c, NodeStep(s, e).out[1]);
    }
  }

  /** x's request goes first: while x waits, y neither has its permission nor will receive it. */
  predicate GoesFirst(p: Pair) { Prior(p.x, p.y) && (p.x.waiting ==> !Granted(Flip(p))) }

  lemma GoesFirstOwnStep(p: Pair, act: Act)
    requires PairInv(p) && Able(p, act) && GoesFirst(p) && !act.AAsk?
    ensures GoesFirst(Do(p, act))
  {
    if act.ATake? {
      assert p.yx[0] in p.yx;
      CountsAppend(p.xy, [Reply]);
    }
  }

  lemma GoesFirstOtherStep(p: Pair, act: Act)
    requires PairInv(p) && Able(Flip(p), act) && GoesFirst(p) && !act.AAsk?
    ensures GoesFirst(Flip(Do(Flip(p), act)))
  {
    if act.ATake? {
      assert p.xy == [p.xy[0]] + p.xy[1..];
    }
  }

  /** Node 0 goes first: while it waits, node 1 does not get its permission. */
  lemma TieWaits(s: State, e: Event)
    requires Tie(s) && Enabled(s, e) && !e.Ask? && Inv(Apply(s, e))
    ensures Apply(s, e).nodes[0].waiting ==> !Granted(View(Apply(s, e), 1, 0))
  {
    Project(s, e, 1, 0);
    Project(s, e, 0, 1);
    var p := View(s, 0, 1);
    assert PairInv(p) && GoesFirst(p);
    if Actor(e) == 0 {
      GoesFirstOwnStep(p, ActOn(s, e, 1));
    } else if Actor(e) == 1 {
      GoesFirstOtherStep(p, ActOn(s, e, 0));
    }
    assert View(Apply(s, e), 1, 0) == Flip(View(Apply(s, e), 0, 1));
  }

  /** Once served, node 1 keeps every permission: nobody is left to ask for one. */
  lemma ServedIsNotAsked(s: State, j: nat)
    requires Tie(s) && !s.nodes[1].waiting && j < |s.nodes| && s.net[j][1] != []
    ensures s.net[j][1][0].Reply?
  {
    if s.net[j][1][0].Request? { HeadIsCurrent(s, j, 1); }
  }

  lemma TieKeeps(s: State, e: Event)
    requires Tie(s) && Enabled(s, e) && !e.Ask? && Inv(Apply(s, e))
    ensures !Apply(s, e).nodes[1].waiting ==> AllGranted(Apply(s, e).nodes[1], 1)
  {
    var s' := Apply(s, e);
    if !s'.nodes[1].waiting {
      if e.Deliver? && e.dst == 1 { ServedIsNotAsked(s, e.src); }
      forall j: nat | j < |s.nodes| && j != 1 ensures s'.nodes[1].A[j] {
        assert PairInv(View(s, 1, j));
      }
    }
  }

  lemma TieStep(s: State, e: Event)
    requires Tie(s) && Enabled(s, e) && !e.Ask?
    ensures Tie(Apply(s, e))
  {
    StepInv(s, e);
    TieNumbers(s, e);
    TieHears(s, e);
    TieWaits(s, e);
    TieKeeps(s, e);
  }

  lemma {:induction false} TieRun(s: State, es: seq<Event>)
    requires Tie(s) && Run(s, es) && NoAsk(es)
    ensures Tie(After(s, es)) && |After(s, es).nodes| == |s.nodes|
    decreases |es|
  {
    if es != [] {
      TieStep(s, es[0]);
      TieRun(Apply(s, es[0]), es[1..]);
    }
  }

  /** From a tie that has been served: both ask again, and node 1, having passed its test, must yield. */
  lemma TieYields(s: State)
    requires Tie(s) && Idle(s)
    ensures Run(s, [Ask(0), Ask(1)])
    ensures var t := After(s, [Ask(0), Ask(1)]);
      && Inv(t) && Enabled(t, Enter(1)) && Enabled(t, Deliver(0, 1)) && YieldStep(t, Deliver(0, 1), 1, 0)
  {
    var s1 := Apply(s, Ask(0));
    StepInv(s, Ask(0));
    var s2 := Apply(s1, Ask(1));
    StepInv(s1, Ask(1));
    assert [Ask(0), Ask(1)][1..] == [Ask(1)];
    assert [Ask(1)][1..] == [];
    assert PairInv(View(s, 1, 0));
    assert s.net[0][1] == [];
    assert s2.net[0][1] == [Request(s.nodes[0].hgstSeq + 1)];
  }

  /** Replay a run of the one-step system after a split run that left nobody between test and entry. */
  lemma Extend(start: SplitState, sofar: seq<SplitEvent>, es: seq<Event>) returns (longer: seq<SplitEvent>)
    requires SplitRun(start, sofar) && SplitAfter(start, sofar).checked == {}
    requires Run(SplitAfter(start, sofar).base, es)
    ensures SplitRun(start, longer)
    ensures SplitAfter(start, longer) == SplitState(After(SplitAfter(start, sofar).base, es), {})
  {
    var more := Replay(SplitAfter(start, sofar), es, 0);
    Concat(start, sofar, more);
    longer := sofar + more;
  }

  /** Some run leads to a state in which node 1 has passed its test and is about to yield to node 0. */
  lemma ReachYield(n: nat) returns (es: seq<SplitEvent>)
    requires n >= 2
    ensures SplitRun(SplitState(Init(n), {}), es)
    ensures var ss := SplitAfter(SplitState(Init(n), {}), es);
      && Inv(ss.base) && 1 in ss.checked
      && SplitEnabled(ss, Base(Deliver(0, 1))) && YieldStep(ss.base, Deliver(0, 1), 1, 0)
  {
    var start := SplitState(Init(n), {});
    TieStart(n);
    es := Extend(start, [], [Ask(0), Ask(1)]);
    var tie := SplitAfter(start, es).base;
    var path := RunToIdle(tie);
    TieRun(tie, path);
    es := Extend(start, es, path);
    TieYields(SplitAfter(start, es).base);
    es := Extend(start, es, [Ask(0), Ask(1)]);
    One(SplitAfter(start, es), Check(1));
    Concat(start, es, [Check(1)]);
    es := es + [Check(1)];
  }

  /** With the test and the entry as two steps, two nodes or more can break mutual exclusion. */
  lemma SplitEnteringCanFail(n: nat) returns (es: seq<SplitEvent>)
    requires n >= 2
    ensures SplitRun(SplitState(Init(n), {}), es)
    ensures BothUsing(SplitAfter(SplitState(Init(n), {}), es).base, 1, 0)
  {
    var start := SplitState(Init(n), {});
    es := ReachYield(n);
    var ss := SplitAfter(start, es);
    var more := YieldEndangers(ss, 1, 0);
    One(ss, Base(Deliver(0, 1)));
    Concat(ss, [Base(Deliver(0, 1))], more);
    Concat(start, es, [Base(Deliver(0, 1))] + more);
    es := es + ([Base(Deliver(0, 1))] + more);
  }

  lemma {:induction false} SplitCount(ss: SplitState, es: seq<SplitEvent>)
    requires SplitRun(ss, es)
    ensures |SplitAfter(ss, es).base.nodes| == |ss.base.nodes|
    decreases |es|
  {
    if es != [] {
      SplitCount(SplitApply(ss, es[0]), es[1..]);
    }
  }

  ghost predicate AlwaysExclusive(ss: SplitState) {
    forall es :: SplitRun(ss, es) ==> !TwoUsing(SplitAfter(ss, es).base)
  }

  /** With the test and the entry as two steps all runs keep mutual exclusion exactly when there is one node at most. */
  lemma SplitSafeIffAlone(n: nat)
    ensures AlwaysExclusive(SplitState(Init(n), {})) <==> n < 2
  {
    var start := SplitState(Init(n), {});
    if n < 2 {
      forall es | SplitRun(start, es) ensures !TwoUsing(SplitAfter(start, es).base) {
        SplitCount(start, es);
      }
    } else {
      var es := SplitEnteringCanFail(n);
      assert TwoUsing(SplitAfter(start, es).base);
    }
  }
}

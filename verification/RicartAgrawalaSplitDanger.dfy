/**
 The exact condition under which testing and entering in two steps is safe.  A node that yields
 after its test can always be led to enter together with the node it has yielded to, so a step
 is harmless exactly when no node with a valid test yields in it.
*/
module RicartAgrawalaSplitDanger {
  import opened RicartAgrawalaSystem
  import opened RicartAgrawalaProgress
  import opened RicartAgrawalaFairness
  import opened RicartAgrawalaSplitEnter

  ghost predicate BothUsing(s: State, i: nat, j: nat) {
    i < |s.nodes| && j < |s.nodes| && i != j && s.nodes[i].using && s.nodes[j].using
  }

  ghost predicate TwoUsing(s: State) { exists i: nat, j: nat :: BothUsing(s, i, j) }

  lemma InvExcludes(s: State)
    requires Inv(s)
    ensures !TwoUsing(s)
  {
    forall i: nat, j: nat ensures !BothUsing(s, i, j) {
      if i < |s.nodes| && j < |s.nodes| && i != j {
        assert PairInv(View(s, i, j));
      }
    }
  }

  // ---------------------------------------------------------------- runs of the one-step system, replayed

  /** At no time of the run before its end does node i hold every permission. */
  ghost predicate Closed(s: State, es: seq<Event>, i: nat)
    requires Run(s, es)
    decreases |es|
  {
    es == [] || (!Enabled(s, Enter(i)) && Closed(Apply(s, es[0]), es[1..], i))
  }

  lemma {:induction false} Concat(ss: SplitState, first: seq<SplitEvent>, rest: seq<SplitEvent>)
    requires SplitRun(ss, first) && SplitRun(SplitAfter(ss, first), rest)
    ensures SplitRun(ss, first + rest) && SplitAfter(ss, first + rest) == SplitAfter(SplitAfter(ss, first), rest)
    ensures AllBenign(ss, first) && AllBenign(SplitAfter(ss, first), rest) ==> AllBenign(ss, first + rest)
    decreases |first|
  {
    if first == [] {
      assert first + rest == rest;
    } else {
      assert (first + rest)[1..] == first[1..] + rest;
      Concat(SplitApply(ss, first[0]), first[1..], rest);
    }
  }

  lemma One(ss: SplitState, e: SplitEvent)
    requires SplitEnabled(ss, e)
    ensures SplitRun(ss, [e]) && SplitAfter(ss, [e]) == SplitApply(ss, e)
    ensures AllBenign(ss, [e]) <==> Benign(ss, e)
  {
    assert [e][1..] == [];
  }

  /** Node k can enter: it tests, unless it has done so, and enters. */
  lemma TestAndEnter(ss: SplitState, k: nat) returns (es: seq<SplitEvent>)
    requires Enabled(ss.base, Enter(k))
    ensures SplitRun(ss, es) && AllBenign(ss, es)
    ensures SplitAfter(ss, es) == SplitState(Apply(ss.base, Enter(k)), ss.checked - {k})
  {
    if k in ss.checked {
      One(ss, LateEnter(k));
      es := [LateEnter(k)];
    } else {
      var tested := SplitApply(ss, Check(k));
      One(ss, Check(k));
      One(tested, LateEnter(k));
      Concat(ss, [Check(k)], [LateEnter(k)]);
      es := [Check(k)] + [LateEnter(k)];
      assert tested.checked - {k} == ss.checked - {k};
    }
  }

  /** What the one-step system does, the split system can do; who does not enter stays between test and entry. */
  lemma {:induction false} Replay(ss: SplitState, es: seq<Event>, i: nat) returns (split: seq<SplitEvent>)
    requires Run(ss.base, es)
    ensures SplitRun(ss, split) && SplitAfter(ss, split).base == After(ss.base, es)
    ensures SplitAfter(ss, split).checked <= ss.checked
    ensures i in ss.checked && Enter(i) !in es ==> i in SplitAfter(ss, split).checked
    ensures ss.checked <= {i} && Enter(i) !in es && Closed(ss.base, es, i) ==> AllBenign(ss, split)
    decreases |es|
  {
    if es == [] {
      split := [];
    } else {
      var e := es[0];
      var first := [Base(e)];
      if e.Enter? {
        first := TestAndEnter(ss, e.i);
      } else {
        One(ss, Base(e));
      }
      var rest := Replay(SplitAfter(ss, first), es[1..], i);
      Concat(ss, first, rest);
      split := first + rest;
    }
  }

  // ---------------------------------------------------------------- after a yield

  /** While node j has i's permission or will receive it, i cannot pass the test. */
  lemma SettledCloses(s: State, i: nat, j: nat)
    requires Inv(s) && SettledFor(s, j, i) && i != j
    ensures !Enabled(s, Enter(i)) && s.nodes[j].waiting
  {
    assert PairInv(View(s, j, i));
  }

  /** The node that was yielded to can be served while the other one does nothing but treat messages. */
  lemma {:induction false} LeadToEntry(s: State, i: nat, j: nat) returns (es: seq<Event>)
    requires Inv(s) && SettledFor(s, j, i) && i != j
    ensures Run(s, es) && Enter(i) !in es && Closed(s, es, i)
    ensures Enabled(After(s, es), Enter(j))
    decreases Work(s)
  {
    SettledCloses(s, i, j);
    if Enabled(s, Enter(j)) {
      es := [];
    } else {
      EnabledIffPending(s);
      var e :| Enabled(s, e) && !e.Ask?;
      SettledStep(s, e, j, i);
      StepInv(s, e);
      WorkStep(s, e);
      var rest := LeadToEntry(Apply(s, e), i, j);
      es := [e] + rest;
      assert es[1..] == rest;
    }
  }

  lemma YieldSettles(s: State, i: nat, j: nat)
    requires Inv(s) && Enabled(s, Deliver(j, i)) && YieldStep(s, Deliver(j, i), i, j)
    ensures i != j && SettledFor(Apply(s, Deliver(j, i)), j, i) && Inv(Apply(s, Deliver(j, i)))
  {
    assert i != j by { assert s.net[i][i] == []; }
    var p := View(s, i, j);
    assert PairInv(p);
    TakingTreats(p);
    Project(s, Deliver(j, i), i, j);
    StepInv(s, Deliver(j, i));
    assert View(Apply(s, Deliver(j, i)), j, i) == Flip(Do(p, ATake));
  }

  /**
   Node i has passed the test, and then yields to j.  From there the split system can go on until
   both are using the resource, and no other valid test is spoiled on the way.
  */
  lemma YieldEndangers(ss: SplitState, i: nat, j: nat) returns (es: seq<SplitEvent>)
    requires Inv(ss.base) && i in ss.checked
    requires SplitEnabled(ss, Base(Deliver(j, i))) && YieldStep(ss.base, Deliver(j, i), i, j)
    ensures var ss' := SplitApply(ss, Base(Deliver(j, i)));
      && SplitRun(ss', es)
      && BothUsing(SplitAfter(ss', es).base, i, j)
      && (ss.checked == {i} ==> AllBenign(ss', es))
  {
    var ss' := SplitApply(ss, Base(Deliver(j, i)));
    YieldSettles(ss.base, i, j);
    var path := LeadToEntry(ss'.base, i, j);
    RunInv(ss'.base, path);
    var toDoor := Replay(ss', path, i);
    var atDoor := SplitAfter(ss', toDoor);
    var entry := TestAndEnter(atDoor, j);
    Keeps(atDoor.base, Enter(j));
    var entered := SplitAfter(atDoor, entry);
    One(entered, LateEnter(i));
    Concat(atDoor, entry, [LateEnter(i)]);
    Concat(ss', toDoor, entry + [LateEnter(i)]);
    es := toDoor + (entry + [LateEnter(i)]);
  }

  // ---------------------------------------------------------------- the exact condition

  lemma OneCanEnter(s: State, i: nat, k: nat)
    requires Inv(s) && i < |s.nodes| && k < |s.nodes| && i != k
    ensures !(Enabled(s, Enter(i)) && Enabled(s, Enter(k)))
  {
    assert PairInv(View(s, i, k));
  }

  lemma OneTester(ss: SplitState, i: nat)
    requires CheckedCanEnter(ss) && i in ss.checked
    ensures ss.checked == {i}
  {
    forall k: nat | k < |ss.base.nodes| && k != i ensures k !in ss.checked {
      OneCanEnter(ss.base, i, k);
    }
    assert forall k <- ss.checked :: k < |ss.base.nodes|;
  }

  /** No way of going on without spoiling a valid test leads to two nodes using. */
  ghost predicate Safe(ss: SplitState) {
    forall es :: SplitRun(ss, es) && AllBenign(ss, es) ==> !TwoUsing(SplitAfter(ss, es).base)
  }

  lemma ValidTestsAreSafe(ss: SplitState)
    requires CheckedCanEnter(ss)
    ensures Safe(ss)
  {
    forall es | SplitRun(ss, es) && AllBenign(ss, es) ensures !TwoUsing(SplitAfter(ss, es).base) {
      SplitRefinesOneStep(ss, es);
      RunInv(ss.base, Erase(es));
      InvExcludes(SplitAfter(ss, es).base);
    }
  }

  /**
   While every test made is still valid, a step keeps it so, and keeps the system safe, exactly
   when no node that has passed the test yields in it.
  */
  lemma SafeIffBenign(ss: SplitState, e: SplitEvent)
    requires CheckedCanEnter(ss) && SplitEnabled(ss, e)
    ensures Benign(ss, e) <==> CheckedCanEnter(SplitApply(ss, e))
    ensures Benign(ss, e) <==> Safe(SplitApply(ss, e))
  {
    if Benign(ss, e) {
      CheckedStep(ss, e);
      ValidTestsAreSafe(SplitApply(ss, e));
    } else {
      var i: nat, j: nat :| i in ss.checked && j < |ss.base.nodes| && e.Base? && YieldStep(ss.base, e.e, i, j);
      OneTester(ss, i);
      assert e == Base(Deliver(j, i));
      var es := YieldEndangers(ss, i, j);
      YieldSettles(ss.base, i, j);
      SettledCloses(SplitApply(ss, e).base, i, j);
      assert TwoUsing(SplitAfter(SplitApply(ss, e), es).base);
    }
  }

  ghost predicate SafeThroughout(ss: SplitState, es: seq<SplitEvent>)
    requires SplitRun(ss, es)
    decreases |es|
  {
    Safe(ss) && (es != [] ==> SafeThroughout(SplitApply(ss, es[0]), es[1..]))
  }

  lemma {:induction false} SafeRunFrom(ss: SplitState, es: seq<SplitEvent>)
    requires CheckedCanEnter(ss) && SplitRun(ss, es)
    ensures AllBenign(ss, es) <==> SafeThroughout(ss, es)
    decreases |es|
  {
    ValidTestsAreSafe(ss);
    if es != [] {
      SafeIffBenign(ss, es[0]);
      if Benign(ss, es[0]) {
        SafeRunFrom(SplitApply(ss, es[0]), es[1..]);
      } else {
        assert es[1..] == [] ==> AllBenign(SplitApply(ss, es[0]), es[1..]);
      }
    }
  }

  /** A run is safe at all its points exactly when no node yields between its test and its entry. */
  lemma SafeRunIffBenign(n: nat, es: seq<SplitEvent>)
    requires SplitRun(SplitState(Init(n), {}), es)
    ensures AllBenign(SplitState(Init(n), {}), es) <==> SafeThroughout(SplitState(Init(n), {}), es)
  {
    InitInv(n);
    SafeRunFrom(SplitState(Init(n), {}), es);
  }
}

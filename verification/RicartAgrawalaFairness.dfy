/**
 What one wait costs and who can be served before it ends: at most one REQUEST to each
 peer, at most 2(n-1) messages, and at most one entry of a peer that has seen the request.
*/
module RicartAgrawalaFairness {
  import opened Numbers
  import opened RicartAgrawalaNode
  import opened RicartAgrawalaSystem
  import opened RicartAgrawalaProgress

  /**
   x waits, has y's permission or will receive it, and y can only ask for it again with a
   request that comes after x's.
  */
  predicate Settled(p: Pair) {
    p.x.waiting && Granted(p) && p.x.seqNo <= p.y.hgst && (p.y.waiting ==> Prior(p.x, p.y))
  }

  ghost predicate SettledFor(s: State, i: nat, j: nat) {
    Shaped(s) && i < |s.nodes| && j < |s.nodes| && Settled(View(s, i, j))
  }

  lemma SettledOwnStep(p: Pair, act: Act)
    requires PairInv(p) && Able(p, act) && Settled(p) && !act.AEnter?
    ensures Settled(Do(p, act))
    ensures p.x.has ==> Do(p, act).x.has
  {
  }

  lemma SettledOtherStep(p: Pair, act: Act)
    requires PairInv(p) && Able(Flip(p), act) && Settled(p)
    ensures !act.AEnter? && Settled(Flip(Do(Flip(p), act)))
  {
  }

  /**
   A granted request is never overtaken: until the waiter enters, its peer cannot enter and
   the permission is not given up.
  */
  lemma SettledStep(s: State, e: Event, i: nat, j: nat)
    requires Inv(s) && Enabled(s, e) && SettledFor(s, i, j) && i != j && e != Enter(i)
    ensures SettledFor(Apply(s, e), i, j) && e != Enter(j)
    ensures s.nodes[i].A[j] ==> Apply(s, e).nodes[i].A[j]
  {
    Project(s, e, i, j);
    Project(s, e, j, i);
    assert PairInv(View(s, i, j));
    if i == Actor(e) {
      SettledOwnStep(View(s, i, j), ActOn(s, e, j));
    } else if j == Actor(e) {
      SettledOtherStep(View(s, i, j), ActOn(s, e, i));
    }
  }

  // ---------------------------------------------------------------- bounded bypass

  /** y has treated x's request: it granted it, or it deferred it. */
  predicate Treated(p: Pair) { Settled(p) || p.y.defers }

  /** How often y may still enter before x does. */
  function Bypasses(p: Pair): nat { Ind(p.y.defers && p.y.waiting) }

  lemma TreatedOwnStep(p: Pair, act: Act)
    requires PairInv(p) && Able(p, act) && Treated(p) && !act.AEnter?
    ensures Treated(Do(p, act)) && Bypasses(Do(p, act)) == Bypasses(p)
  {
  }

  lemma TreatedOtherStep(p: Pair, act: Act)
    requires PairInv(p) && Able(Flip(p), act) && Treated(p)
    ensures var p' := Flip(Do(Flip(p), act));
      Treated(p') && Ind(act.AEnter?) + Bypasses(p') <= Bypasses(p)
  {
  }

  ghost predicate TreatedBy(s: State, i: nat, j: nat) {
    Shaped(s) && i < |s.nodes| && j < |s.nodes| && Treated(View(s, i, j))
  }

  lemma TreatedStep(s: State, e: Event, i: nat, j: nat)
    requires Inv(s) && Enabled(s, e) && TreatedBy(s, i, j) && i != j && e != Enter(i)
    ensures TreatedBy(Apply(s, e), i, j)
    ensures Ind(e == Enter(j)) + Bypasses(View(Apply(s, e), i, j)) <= Bypasses(View(s, i, j))
  {
    Project(s, e, i, j);
    Project(s, e, j, i);
    assert PairInv(View(s, i, j));
    if i == Actor(e) {
      TreatedOwnStep(View(s, i, j), ActOn(s, e, j));
    } else if j == Actor(e) {
      TreatedOtherStep(View(s, i, j), ActOn(s, e, i));
    }
  }

  lemma {:induction false} BypassRun(s: State, es: seq<Event>, i: nat, j: nat)
    requires Inv(s) && Run(s, es) && TreatedBy(s, i, j) && i != j && Enter(i) !in es
    ensures Entries(es, j) <= Bypasses(View(s, i, j))
    decreases |es|
  {
    if es != [] {
      StepInv(s, es[0]);
      TreatedStep(s, es[0], i, j);
      BypassRun(Apply(s, es[0]), es[1..], i, j);
    }
  }

  /** x takes y's REQUEST: it is treated from then on. */
  lemma TakingTreats(p: Pair)
    requires PairInv(p) && p.yx != [] && p.yx[0].Request?
    ensures p.yx[0].seqNo == p.y.seqNo
    ensures Treated(Flip(Do(p, ATake)))
    ensures Bypasses(Flip(Do(p, ATake))) == Ind(p.x.waiting && (p.x.using || Prior(p.x, p.y)))
  {
    assert p.yx[0] in p.yx;
    assert p.yx == [p.yx[0]] + p.yx[1..];
    CountsAppend(p.xy, [Reply]);
    CountsAppend(p.xy, [Reply, Request(p.x.seqNo)]);
    CountsAppend([Reply], [Request(p.x.seqNo)]);
    assert [Reply] + [Request(p.x.seqNo)] == [Reply, Request(p.x.seqNo)];
  }

  /**
   Once j has treated i's REQUEST, j enters at most once before i does, and only if it was
   itself waiting and deferred the request.
  */
  lemma BoundedBypass(s: State, es: seq<Event>, i: nat, j: nat)
    requires Inv(s) && i < |s.nodes| && j < |s.nodes| && i != j
    requires s.net[i][j] != [] && s.net[i][j][0].Request?
    requires Run(s, [Deliver(i, j)] + es) && Enter(i) !in es
    ensures Entries(es, j) <= Ind(s.nodes[j].waiting && Defers(s.nodes[j], j, s.nodes[i].ourSeq, i))
  {
    var e := Deliver(i, j);
    assert ([e] + es)[1..] == es;
    TakingTreats(View(s, j, i));
    Project(s, e, j, i);
    StepInv(s, e);
    assert View(Apply(s, e), i, j) == Flip(Do(View(s, j, i), ATake));
    BypassRun(Apply(s, e), es, i, j);
  }

  // ---------------------------------------------------------------- messages of one wait

  /** REQUESTs that i sends to j in one step, and in a run. */
  ghost function Sends(s: State, e: Event, i: nat, j: nat): nat
    requires Enabled(s, e) && j < |s.nodes|
  {
    if i == Actor(e) then Requests(NodeStep(s, e).out[j]) else 0
  }

  ghost function Sent(s: State, es: seq<Event>, i: nat, j: nat): nat
    requires Run(s, es) && j < |s.nodes|
    decreases |es|
  {
    if es == [] then 0 else Sends(s, es[0], i, j) + Sent(Apply(s, es[0]), es[1..], i, j)
  }

  /** REPLYs that i takes from j in one step, and in a run. */
  ghost function Takes(s: State, e: Event, i: nat, j: nat): nat
    requires Enabled(s, e)
  {
    Ind(e == Deliver(j, i) && s.net[j][i][0].Reply?)
  }

  ghost function Taken(s: State, es: seq<Event>, i: nat, j: nat): nat
    requires Run(s, es)
    decreases |es|
  {
    if es == [] then 0 else Takes(s, es[0], i, j) + Taken(Apply(s, es[0]), es[1..], i, j)
  }

  /** i gives up j's permission in order to let j's earlier request go first. */
  ghost predicate YieldStep(s: State, e: Event, i: nat, j: nat)
    requires Enabled(s, e)
  {
    && e == Deliver(j, i)
    && s.net[j][i][0].Request?
    && Yields(s.nodes[i], i, s.net[j][i][0].seqNo, j)
  }

  ghost predicate NeverYields(s: State, es: seq<Event>, i: nat, j: nat)
    requires Run(s, es)
    decreases |es|
  {
    es == [] || (!YieldStep(s, es[0], i, j) && NeverYields(Apply(s, es[0]), es[1..], i, j))
  }

  /** x may still have to ask y: it relies on a permission left over from an earlier wait. */
  predicate LeftOver(p: Pair) { p.x.waiting && p.x.has && !Settled(p) }

  /**
   After a yield the peer takes the permission first and only then the request for it: with nothing
   else on the channel, the REPLY comes out before the REQUEST.
  */
  lemma YieldRepliesFirst(s: State, i: nat, j: nat)
    requires Inv(s) && Enabled(s, Deliver(j, i)) && YieldStep(s, Deliver(j, i), i, j)
    ensures var t := Apply(s, Deliver(j, i));
      && t.net[i][j] == [Reply, Request(s.nodes[i].ourSeq)]
      && Enabled(t, Deliver(i, j))
      && var u := Apply(t, Deliver(i, j));
         u.nodes[j].A[i] && u.net[i][j] == [Request(s.nodes[i].ourSeq)]
  {
    HeadIsCurrent(s, j, i);
    var p := View(s, i, j);
    assert PairInv(p);
    assert p.yx == [p.yx[0]] + p.yx[1..];
    OnlyRequestsAndReplies(p.xy);
    StepInv(s, Deliver(j, i));
  }

  lemma OnlyRequestsAndReplies(c: seq<Message>)
    requires Requests(c) == Replies(c) == 0
    ensures c == []
  {
  }

  /** While waiting, a node sends a REQUEST only when it yields. */
  lemma SendsOnlyOnYield(s: State, e: Event, i: nat, j: nat)
    requires Inv(s) && Enabled(s, e) && i < |s.nodes| && j < |s.nodes| && i != j
    requires s.nodes[i].waiting && e != Enter(i)
    ensures Apply(s, e).nodes[i].waiting
    ensures Sends(s, e, i, j) == Ind(YieldStep(s, e, i, j))
  {
    if e.Deliver? && e.dst == i {
      assert e.src != i by { assert s.net[i][i] == []; }
      var k := s.nodes[i].ourSeq;
      CountsAppend([Reply], [Request(k)]);
      assert [Reply] + [Request(k)] == [Reply, Request(k)];
    }
  }

  lemma LeftOverStep(s: State, e: Event, i: nat, j: nat)
    requires Inv(s) && Enabled(s, e) && i < |s.nodes| && j < |s.nodes| && i != j
    requires s.nodes[i].waiting && e != Enter(i)
    ensures Apply(s, e).nodes[i].waiting
    ensures Sends(s, e, i, j) + Ind(LeftOver(View(Apply(s, e), i, j))) <= Ind(LeftOver(View(s, i, j)))
    ensures Sends(s, e, i, j) == Ind(YieldStep(s, e, i, j))
    ensures Ind(!Apply(s, e).nodes[i].A[j]) + Takes(s, e, i, j)
         == Ind(!s.nodes[i].A[j]) + Sends(s, e, i, j)
  {
    SendsOnlyOnYield(s, e, i, j);
    var p := View(s, i, j);
    assert PairInv(p);
    Project(s, e, i, j);
    Project(s, e, j, i);
    if SettledFor(s, i, j) {
      SettledStep(s, e, i, j);
    }
    if e == Deliver(j, i) {
      assert p.yx[0] in p.yx;
      assert p.yx == [p.yx[0]] + p.yx[1..];
    }
  }

  lemma {:induction false} WaitCost(s: State, es: seq<Event>, i: nat, j: nat)
    requires Inv(s) && Run(s, es) && i < |s.nodes| && j < |s.nodes| && i != j
    requires s.nodes[i].waiting && Enter(i) !in es
    ensures Sent(s, es, i, j) <= Ind(LeftOver(View(s, i, j)))
    ensures Sent(s, es, i, j) == 0 <==> NeverYields(s, es, i, j)
    ensures Inv(After(s, es)) && |After(s, es).nodes| == |s.nodes|
    ensures Ind(!After(s, es).nodes[i].A[j]) + Taken(s, es, i, j)
         == Ind(!s.nodes[i].A[j]) + Sent(s, es, i, j)
    decreases |es|
  {
    if es != [] {
      StepInv(s, es[0]);
      LeftOverStep(s, es[0], i, j);
      WaitCost(Apply(s, es[0]), es[1..], i, j);
    }
  }

  lemma AskingCosts(s: State, i: nat, j: nat)
    requires Inv(s) && Enabled(s, Ask(i)) && j < |s.nodes| && i != j
    ensures var s' := Apply(s, Ask(i));
      && Shaped(s') && s'.nodes[i].waiting && s'.nodes[i].A[j] == s.nodes[i].A[j]
      && Sends(s, Ask(i), i, j) == Ind(!s.nodes[i].A[j])
      && (LeftOver(View(s', i, j)) ==> s.nodes[i].A[j])
  {
    Project(s, Ask(i), i, j);
    assert Requests([Request(s.nodes[i].hgstSeq + 1)]) == 1;
  }

  /** From asking to entering: one REQUEST to j at most, answered before the entry. */
  lemma WaitCostOfPeer(s: State, es: seq<Event>, i: nat, j: nat)
    requires Inv(s) && Run(s, [Ask(i)] + es) && i < |s.nodes| && j < |s.nodes| && i != j
    requires Enter(i) !in es && Enabled(After(s, [Ask(i)] + es), Enter(i))
    ensures Sent(s, [Ask(i)] + es, i, j) <= 1
    ensures Taken(s, [Ask(i)] + es, i, j) == Sent(s, [Ask(i)] + es, i, j)
    ensures Sent(s, [Ask(i)] + es, i, j) == 0 <==>
      s.nodes[i].A[j] && NeverYields(s, [Ask(i)] + es, i, j)
  {
    assert ([Ask(i)] + es)[1..] == es;
    StepInv(s, Ask(i));
    AskingCosts(s, i, j);
    WaitCost(Apply(s, Ask(i)), es, i, j);
  }

  /** The REQUESTs that i sends to j and the REPLYs it takes from j. */
  ghost function PeerCost(s: State, es: seq<Event>, i: nat, j: nat): nat {
    if Run(s, es) && j < |s.nodes| && j != i then Sent(s, es, i, j) + Taken(s, es, i, j) else 0
  }

  ghost function Cost(s: State, es: seq<Event>, i: nat): nat {
    Sum(|s.nodes|, j => PeerCost(s, es, i, j))
  }

  ghost predicate Free(s: State, es: seq<Event>, i: nat, j: nat)
    requires Run(s, es) && Shaped(s) && i < |s.nodes| && j < |s.nodes|
  {
    s.nodes[i].A[j] && NeverYields(s, es, i, j)
  }

  /**
   An entry costs at most 2(n-1) messages.  It is free exactly when every permission was
   cached at the time of asking and none is yielded before entering.
  */
  lemma EntryCost(s: State, es: seq<Event>, i: nat)
    requires Inv(s) && Run(s, [Ask(i)] + es) && i < |s.nodes|
    requires Enter(i) !in es && Enabled(After(s, [Ask(i)] + es), Enter(i))
    ensures Cost(s, [Ask(i)] + es, i) <= 2 * (|s.nodes| - 1)
    ensures Cost(s, [Ask(i)] + es, i) == 0 <==>
      forall j: nat :: j < |s.nodes| && j != i ==> Free(s, [Ask(i)] + es, i, j)
  {
    var run := [Ask(i)] + es;
    var f := (j: nat) => PeerCost(s, run, i, j);
    forall j: nat | j < |s.nodes|
      ensures f(j) <= if j == i then 0 else 2
      ensures j != i ==> (f(j) == 0 <==> Free(s, run, i, j))
    {
      if j != i {
        WaitCostOfPeer(s, es, i, j);
      }
    }
    SumBound(|s.nodes|, f, 2, i);
    assert Cost(s, run, i) == Sum(|s.nodes|, f);
  }
}

/**
 What holds in every reachable state of Maekawa's algorithm, and the one step of the source
 that can break it.
*/
module MaekawaSafety {
  import opened Numbers
  import opened MessageQueue
  import opened MaekawaNode
  import opened MaekawaArbiter
  import opened MaekawaSystem

  lemma {:induction false} RunInv(cfg: Config, s: State, es: seq<Event>)
    requires Inv(cfg, s) && TimelyRun(cfg, s, es)
    ensures Inv(cfg, After(cfg, s, es))
    decreases |es|
  {
    if es != [] {
      StepInv(cfg, s, es[0]);
      RunInv(cfg, Apply(cfg, s, es[0]), es[1..]);
    }
  }

  /** Two clients whose quorums meet are never both in the critical section. */
  lemma InsideExcludes(cfg: Config, s: State, i: nat, k: nat)
    requires Inv(cfg, s) && i < |cfg.quorums| && k < |cfg.quorums| && i != k
    requires cfg.quorums[i] * cfg.quorums[k] != {}
    ensures !(s.phase[i] == Inside && s.phase[k] == Inside)
  {
    var j :| j in cfg.quorums[i] * cfg.quorums[k];
    assert LinkInv(View(cfg, s, i, j));
    assert LinkInv(View(cfg, s, k, j));
  }

  /** Mutual exclusion, for any number of clients and any pairwise intersecting quorums. */
  lemma MutualExclusion(cfg: Config, es: seq<Event>)
    requires GoodConfig(cfg) && PairwiseIntersecting(cfg) && TimelyRun(cfg, Init(cfg), es)
    ensures var t := After(cfg, Init(cfg), es);
      && |t.phase| == |cfg.quorums|
      && forall i, k :: 0 <= i < k < |t.phase| ==> !(t.phase[i] == Inside && t.phase[k] == Inside)
  {
    InitInv(cfg);
    RunInv(cfg, Init(cfg), es);
    var t := After(cfg, Init(cfg), es);
    forall i, k | 0 <= i < k < |t.phase| ensures !(t.phase[i] == Inside && t.phase[k] == Inside) {
      InsideExcludes(cfg, t, i, k);
    }
  }

  /** A locked arbiter has one grant token, and it is its holder's; a free one has none. */
  lemma OneToken(cfg: Config, es: seq<Event>, i: nat, j: nat)
    requires GoodConfig(cfg) && TimelyRun(cfg, Init(cfg), es) && i < |cfg.quorums| && j < |cfg.quorums|
    ensures var t := After(cfg, Init(cfg), es);
      && Shaped(cfg, t)
      && Tokens(View(cfg, t, i, j)) ==
           (match t.arbiters[j].lock case Free => 0 case Held(r) => if r.sender == i then 1 else 0)
  {
    InitInv(cfg);
    RunInv(cfg, Init(cfg), es);
    assert LinkInv(View(cfg, After(cfg, Init(cfg), es), i, j));
  }

  /**
   The request of a waiting or inside client is, at each member of its quorum, in exactly one
   place: on its way, queued once, or holding the lock (until the RELEASE on its way arrives).
   The queue keeps at most n-1 requests, and none when the arbiter is free.
  */
  lemma RequestConserved(cfg: Config, es: seq<Event>, i: nat, j: nat)
    requires GoodConfig(cfg) && TimelyRun(cfg, Init(cfg), es) && i < |cfg.quorums| && j < |cfg.quorums|
    ensures var t := After(cfg, Init(cfg), es);
      && Shaped(cfg, t)
      && var a := t.arbiters[j];
      && Requests(t.up[i][j]) + Ind(Queued(a, i)) + Ind(Holds(a, i))
         == Ind(j in cfg.quorums[i] && t.phase[i] != Outside) + Releases(t.up[i][j])
      && !(Queued(a, i) && Holds(a, i))
      && (forall r <- a.queue :: a.queue[r] == 1 && forall x <- a.queue :: x.sender == r.sender ==> x == r)
      && (a.lock.Free? ==> a.queue == multiset{})
      && (a.lock.Held? ==> |a.queue| <= |cfg.quorums| - 1)
  {
    InitInv(cfg);
    RunInv(cfg, Init(cfg), es);
    var t := After(cfg, Init(cfg), es);
    assert LinkInv(View(cfg, t, i, j));
    assert ArbiterInv(t.arbiters[j], |cfg.quorums|);
    QueueBound(t.arbiters[j], |cfg.quorums|);
  }

  /** Only the holder is ever being asked, exactly when some waiting request goes before its own. */
  lemma InquireIffPreceded(cfg: Config, es: seq<Event>, j: nat, k: nat)
    requires GoodConfig(cfg) && TimelyRun(cfg, Init(cfg), es) && j < |cfg.quorums| && k < |cfg.quorums|
    ensures var t := After(cfg, Init(cfg), es);
      && Shaped(cfg, t)
      && var a := t.arbiters[j];
      (!a.inquireReplied[k] <==> Holds(a, k) && Preceded(a.lock.owner, a.queue))
  {
    InitInv(cfg);
    RunInv(cfg, Init(cfg), es);
    assert ArbiterInv(After(cfg, Init(cfg), es).arbiters[j], |cfg.quorums|);
  }

  /** The arbiter never takes the top of an empty queue: a RELINQUISH finds an earlier request waiting. */
  lemma RelinquishNeverPopsEmpty(cfg: Config, es: seq<Event>, i: nat, j: nat)
    requires GoodConfig(cfg) && TimelyRun(cfg, Init(cfg), es) && i < |cfg.quorums| && j < |cfg.quorums|
    ensures var t := After(cfg, Init(cfg), es);
      && Shaped(cfg, t)
      && (t.up[i][j] != [] && t.up[i][j][0].Relinquish? ==>
            && Holds(t.arbiters[j], i)
            && t.arbiters[j].queue != multiset{}
            && Later(t.arbiters[j].lock.owner, Least(t.arbiters[j].queue)))
  {
    InitInv(cfg);
    RunInv(cfg, Init(cfg), es);
    var t := After(cfg, Init(cfg), es);
    if t.up[i][j] != [] && t.up[i][j][0].Relinquish? {
      HeadExpected(cfg, t, i, j);
      assert ArbiterInv(t.arbiters[j], |cfg.quorums|);
      TopIsFirst(t.arbiters[j], i, |cfg.quorums|);
    }
  }

  // ---------------------------------------------------------------- giving the lock back in time

  /**
   The handler of INQUIRE looks neither at the standing of the arbiter it answers nor at whether
   its client has entered since it decided.  Giving the lock back keeps the invariant exactly when
   the grant is still recorded and the client still waits; the token count alone stays right
   exactly when the grant is still recorded.
  */
  lemma RelinquishRightIffTimely(cfg: Config, s: State, i: nat, j: nat)
    requires Inv(cfg, s) && Enabled(cfg, s, Yield(i, j))
    ensures var t := Apply(cfg, s, Yield(i, j));
      && Shaped(cfg, t)
      && (Inv(cfg, t) <==> Timely(cfg, s, Yield(i, j)))
      && (Tokens(View(cfg, t, i, j)) == Ind(Holds(t.arbiters[j], i)) <==> StandingOf(s, i, j) == GotLocked)
  {
    assert LinkInv(View(cfg, s, i, j));
    HearShaped(cfg, s, Yield(i, j));
    YieldTokens(cfg, s, i, j);
    if Timely(cfg, s, Yield(i, j)) {
      StepInv(cfg, s, Yield(i, j));
    } else {
      var l := View(cfg, Apply(cfg, s, Yield(i, j)), i, j);
      assert Tokens(l) != Ind(l.holds) || (l.phase == Inside && l.standing == GotFailed);
    }
  }

  lemma YieldTokens(cfg: Config, s: State, i: nat, j: nat)
    requires Inv(cfg, s) && Enabled(cfg, s, Yield(i, j)) && Shaped(cfg, Apply(cfg, s, Yield(i, j)))
    ensures var l, l' := View(cfg, s, i, j), View(cfg, Apply(cfg, s, Yield(i, j)), i, j);
      && LinkInv(l) && l.member
      && Tokens(l') == Ind(l.holds) + Ind(l.standing != GotLocked)
      && l'.holds == l.holds && l'.phase == l.phase && l'.member && l'.standing == GotFailed
  {
    var l, t := View(cfg, s, i, j), Apply(cfg, s, Yield(i, j));
    assert LinkInv(l);
    UpAppend(l.up, Relinquish);
    assert t.up[i][j] == l.up + [Relinquish];
    assert l.down == [l.down[0]] + l.down[1..];
    assert t.down[j][i] == l.down[1..];
  }

  /** Requester i is about to give arbiter j's lock back, and is right to. */
  ghost predicate RightToYield(cfg: Config, s: State, i: nat, j: nat)
    requires Shaped(cfg, s)
  {
    Enabled(cfg, s, Yield(i, j)) && Timely(cfg, s, Yield(i, j))
  }

  /** A decision made while the grant is recorded is right. */
  lemma DecidesRight(cfg: Config, s: State, i: nat, j: nat)
    requires Inv(cfg, s) && Enabled(cfg, s, Look(i, j)) && SomeFailed(s.clients[i], cfg.quorums[i])
    ensures Inv(cfg, Apply(cfg, s, Look(i, j)))
    ensures RightToYield(cfg, Apply(cfg, s, Look(i, j)), i, j) <==> StandingOf(s, i, j) == GotLocked
  {
    StepInv(cfg, s, Look(i, j));
    FailedWaits(cfg, s, i);
  }

  predicate RightOnLink(l: Link) { l.stage == Yielding && l.standing == GotLocked && l.phase == Waiting }

  lemma RightLinkStep(l: Link, act: Act, seqNo: nat)
    requires LinkInv(l) && Able(l, act) && RightOnLink(l) && !act.LYield?
    ensures RightOnLink(Do(l, act, seqNo)) <==> !act.LEnter?
  {
  }

  lemma RightIsOnLink(cfg: Config, s: State, i: nat, j: nat)
    requires Inv(cfg, s) && i < |cfg.quorums| && j < |cfg.quorums|
    ensures RightToYield(cfg, s, i, j) <==> RightOnLink(View(cfg, s, i, j))
  {
    assert LinkInv(View(cfg, s, i, j));
  }

  /** Between the decision and the RELINQUISH, entering is the one step that makes the decision wrong. */
  lemma OnlyEnteringSpoilsDecision(cfg: Config, s: State, e: Event, i: nat, j: nat)
    requires Inv(cfg, s) && Enabled(cfg, s, e) && Timely(cfg, s, e)
    requires RightToYield(cfg, s, i, j) && e != Yield(i, j)
    ensures Inv(cfg, Apply(cfg, s, e))
    ensures RightToYield(cfg, Apply(cfg, s, e), i, j) <==> e != Enter(i)
  {
    StepInv(cfg, s, e);
    Project(cfg, s, e, i, j);
    RightIsOnLink(cfg, s, i, j);
    RightIsOnLink(cfg, Apply(cfg, s, e), i, j);
    assert LinkInv(View(cfg, s, i, j));
    RightLinkStep(View(cfg, s, i, j), ActOn(cfg, s, e, i, j), NextSeq(s, i));
    OnLinkActs(cfg, s, e, i, j);
  }

  lemma OnLinkActs(cfg: Config, s: State, e: Event, i: nat, j: nat)
    requires Shaped(cfg, s) && Enabled(cfg, s, e) && i < |cfg.quorums| && j < |cfg.quorums|
    ensures ActOn(cfg, s, e, i, j).LEnter? <==> e == Enter(i)
    ensures ActOn(cfg, s, e, i, j).LYield? <==> e == Yield(i, j)
  {
  }

  /** What is wrong with it then: the lock goes to somebody else while the client is inside. */
  lemma LateYieldLosesLock(cfg: Config, s: State, i: nat, j: nat)
    requires Inv(cfg, s) && Enabled(cfg, s, Yield(i, j)) && s.phase[i] == Inside
    ensures var t := Apply(cfg, s, Yield(i, j));
      && Shaped(cfg, t) && Enabled(cfg, t, AtArbiter(i, j))
      && var u := Apply(cfg, t, AtArbiter(i, j));
      && u.phase[i] == Inside && j in cfg.quorums[i]
      && u.arbiters[j].lock.Held? && u.arbiters[j].lock.owner.sender != i
  {
    var l := View(cfg, s, i, j);
    assert LinkInv(l);
    HearShaped(cfg, s, Yield(i, j));
    assert Relinquishes(l.up) == Requests(l.up) == Releases(l.up) == 0;
    EmptyUp(l.up);
    var t := Apply(cfg, s, Yield(i, j));
    assert t.up[i][j] == [Relinquish];
    assert ArbiterInv(s.arbiters[j], |cfg.quorums|);
    RelinquishMeaning(s.arbiters[j], i, |cfg.quorums|, cfg.maxSize);
  }

  lemma EmptyUp(c: seq<Up>)
    requires Relinquishes(c) == Requests(c) == Releases(c) == 0
    ensures c == []
  {
  }

  // ---------------------------------------------------------------- new requests go last

  ghost predicate PendingAt(a: Arbiter, r: Req) {
    r in a.queue || (a.lock.Held? && a.lock.owner == r)
  }

  ghost predicate HighWater(cfg: Config, s: State) {
    Shaped(cfg, s) &&
    forall j: nat, r :: j < |cfg.quorums| && PendingAt(s.arbiters[j], r) ==> r.timestamp <= s.clients[j].hgstSeq
  }

  /** Treating a message makes nothing pending but the request it carries. */
  lemma PendingAfter(a: Arbiter, i: nat, m: Up, n: nat, maxSize: nat, r: Req)
    requires ArbiterInv(a, n) && n <= maxSize + 1 && i < n && Expected(a, i, m)
    requires PendingAt(ArbiterTakes(a, i, m, maxSize).arbiter, r)
    ensures PendingAt(a, r) || m == Request(r)
  {
    match m {
      case Request(x) => RequestMeaning(a, x, n, maxSize); PushedMembers(a.queue, x);
      case Relinquish =>
        RelinquishMeaning(a, i, n, maxSize);
        var b := ArbiterTakes(a, i, m, maxSize).arbiter;
        PushedMembers(a.queue, a.lock.owner);
        PushedMembers(b.queue, b.lock.owner);
        assert r in b.queue + multiset{b.lock.owner};
      case Release =>
        ReleaseMeaning(a, i, n);
        var b := ArbiterTakes(a, i, m, maxSize).arbiter;
        if b.lock.Held? { PushedMembers(b.queue, b.lock.owner); }
    }
  }

  lemma HighWaterAtArbiter(cfg: Config, s: State, i: nat, j: nat)
    requires Inv(cfg, s) && Enabled(cfg, s, AtArbiter(i, j)) && HighWater(cfg, s)
    requires Shaped(cfg, Apply(cfg, s, AtArbiter(i, j)))
    ensures HighWater(cfg, Apply(cfg, s, AtArbiter(i, j)))
  {
    var a, m := s.arbiters[j], s.up[i][j][0];
    HeadExpected(cfg, s, i, j);
    assert ArbiterInv(a, |cfg.quorums|);
    forall r | PendingAt(ArbiterTakes(a, i, m, cfg.maxSize).arbiter, r) ensures PendingAt(a, r) || m == Request(r) {
      PendingAfter(a, i, m, |cfg.quorums|, cfg.maxSize, r);
    }
  }

  lemma HighWaterElsewhere(cfg: Config, s: State, e: Event)
    requires Shaped(cfg, s) && Enabled(cfg, s, e) && !e.AtArbiter? && HighWater(cfg, s)
    requires Shaped(cfg, Apply(cfg, s, e))
    ensures HighWater(cfg, Apply(cfg, s, e))
  {
    var s' := Apply(cfg, s, e);
    assert forall j :: 0 <= j < |cfg.quorums| ==> s'.clients[j].hgstSeq == s.clients[j].hgstSeq;
  }

  lemma HighWaterStep(cfg: Config, s: State, e: Event)
    requires Inv(cfg, s) && Enabled(cfg, s, e) && Timely(cfg, s, e) && HighWater(cfg, s)
    ensures HighWater(cfg, Apply(cfg, s, e))
  {
    StepInv(cfg, s, e);
    if e.AtArbiter? {
      HighWaterAtArbiter(cfg, s, e.i, e.j);
    } else {
      HighWaterElsewhere(cfg, s, e);
    }
  }

  lemma {:induction false} HighWaterRun(cfg: Config, s: State, es: seq<Event>)
    requires Inv(cfg, s) && TimelyRun(cfg, s, es) && HighWater(cfg, s)
    ensures HighWater(cfg, After(cfg, s, es))
    decreases |es|
  {
    if es != [] {
      StepInv(cfg, s, es[0]);
      HighWaterStep(cfg, s, es[0]);
      HighWaterRun(cfg, Apply(cfg, s, es[0]), es[1..]);
    }
  }

  /** The request a client makes comes after every request pending at its own arbiter. */
  lemma NewRequestGoesLast(cfg: Config, es: seq<Event>, i: nat, r: Req)
    requires GoodConfig(cfg) && TimelyRun(cfg, Init(cfg), es) && i < |cfg.quorums|
    ensures var t := After(cfg, Init(cfg), es);
      && Shaped(cfg, t)
      && (PendingAt(t.arbiters[i], r) ==> Later(Req(AskStep(t.clients[i], cfg.quorums[i]).ourSeq, i), r))
  {
    InitInv(cfg);
    HighWaterRun(cfg, Init(cfg), es);
  }
}

/**
 Nothing gets stuck.  A waiter can always be served in the end: as long as anything is
 pending some step other than a new request is enabled, and without new requests every
 step lowers `Work`, so every run ends, with every waiter served exactly once.
*/
module RicartAgrawalaProgress {
  import opened Numbers
  import opened RicartAgrawalaNode
  import opened RicartAgrawalaSystem

  // ---------------------------------------------------------------- deadlock freedom

  lemma NoMutualDeferral(n: nat, es: seq<Event>, i: nat, j: nat)
    requires Run(Init(n), es) && i < n && j < n && i != j
    ensures var t := After(Init(n), es);
      Shaped(t) && |t.nodes| == n && !(t.nodes[i].deferred[j] && t.nodes[j].deferred[i])
  {
    ReachableInv(n, es);
    var t := After(Init(n), es);
    assert PairInv(View(t, i, j));
  }

  ghost predicate Quiet(s: State)
    requires Shaped(s)
  {
    && (forall i, j :: 0 <= i < |s.nodes| && 0 <= j < |s.nodes| ==> s.net[i][j] == [])
    && (forall i :: 0 <= i < |s.nodes| ==> !s.nodes[i].using)
  }

  /** With nothing in flight and nobody using, the waiter with the lowest number, then the lowest id, can enter. */
  lemma FirstWaiterCanEnter(s: State, i: nat)
    requires Inv(s) && Quiet(s) && i < |s.nodes| && s.nodes[i].waiting
    requires forall j: nat :: j < |s.nodes| && s.nodes[j].waiting ==>
      s.nodes[i].ourSeq < s.nodes[j].ourSeq || (s.nodes[i].ourSeq == s.nodes[j].ourSeq && i <= j)
    ensures Enabled(s, Enter(i))
  {
    forall j: nat | j < |s.nodes| && j != i ensures s.nodes[i].A[j] {
      var p := View(s, i, j);
      assert PairInv(p);
      assert p.xy == [] && p.yx == [];
    }
  }

  lemma {:induction false} FindFirstWaiter(s: State, m: nat) returns (i: nat)
    requires Shaped(s) && m <= |s.nodes|
    requires exists k :: 0 <= k < m && s.nodes[k].waiting
    ensures i < m && s.nodes[i].waiting
    ensures forall j: nat :: j < m && j != i && s.nodes[j].waiting ==>
      Before(s.nodes[i].ourSeq, i, s.nodes[j].ourSeq, j)
  {
    if exists k :: 0 <= k < m - 1 && s.nodes[k].waiting {
      i := FindFirstWaiter(s, m - 1);
      if s.nodes[m - 1].waiting && Before(s.nodes[m - 1].ourSeq, m - 1, s.nodes[i].ourSeq, i) {
        i := m - 1;
      }
    } else {
      i := m - 1;
    }
  }

  ghost predicate Idle(s: State)
    requires Shaped(s)
  {
    Quiet(s) && forall i :: 0 <= i < |s.nodes| ==> !s.nodes[i].waiting
  }

  /** Some step other than a new request is enabled exactly when anything is pending. */
  lemma EnabledIffPending(s: State)
    requires Inv(s)
    ensures (exists e :: Enabled(s, e) && !e.Ask?) <==> !Idle(s)
  {
    if !Idle(s) {
      if i, j :| 0 <= i < |s.nodes| && 0 <= j < |s.nodes| && s.net[i][j] != [] {
        assert Enabled(s, Deliver(i, j));
      } else if i :| 0 <= i < |s.nodes| && s.nodes[i].using {
        assert Enabled(s, Release(i));
      } else {
        var i := FindFirstWaiter(s, |s.nodes|);
        FirstWaiterCanEnter(s, i);
      }
    }
  }

  // ---------------------------------------------------------------- a measure of the work left

  function Sum(n: nat, f: nat -> nat): nat {
    if n == 0 then 0 else Sum(n - 1, f) + f(n - 1)
  }

  lemma {:induction false} SumMonotone(n: nat, f: nat -> nat, g: nat -> nat)
    requires forall k :: 0 <= k < n ==> f(k) <= g(k)
    ensures Sum(n, f) <= Sum(n, g)
    ensures (exists k :: 0 <= k < n && f(k) < g(k)) ==> Sum(n, f) < Sum(n, g)
  {
    if n > 0 {
      SumMonotone(n - 1, f, g);
    }
  }

  /** A bound for every summand but the i-th, which is 0; there is none with i >= n. */
  lemma {:induction false} SumBound(n: nat, f: nat -> nat, c: nat, i: nat)
    requires forall k :: 0 <= k < n ==> f(k) <= if k == i then 0 else c
    ensures Sum(n, f) <= c * (if i < n then n - 1 else n)
    ensures Sum(n, f) == 0 <==> forall k :: 0 <= k < n ==> f(k) == 0
  {
    if n > 0 {
      SumBound(n - 1, f, c, i);
      assert c * (n - 1) + c == c * n;
      assert i < n - 1 ==> c * (n - 2) + c == c * (n - 1);
    }
  }

  /** x holds a permission it would give up to y's request. */
  predicate Yieldable(p: Pair) {
    p.x.waiting && p.x.has && p.y.waiting && Prior(p.y, p.x)
  }

  function PairWork(p: Pair): nat {
    3 * Requests(p.xy) + 2 * Ind(p.y.defers) + Replies(p.yx) + 3 * Ind(Yieldable(p))
  }

  function NodeWork(nd: Node): nat {
    (if nd.waiting then 2 else 0) + (if nd.using then 1 else 0)
  }

  ghost function WorkOn(s: State, i: nat, j: nat): nat {
    if Shaped(s) && i < |s.nodes| && j < |s.nodes| && i != j then PairWork(View(s, i, j)) else 0
  }

  ghost function WorkAt(s: State, i: nat): nat {
    (if i < |s.nodes| then NodeWork(s.nodes[i]) else 0) + Sum(|s.nodes|, j => WorkOn(s, i, j))
  }

  ghost function Work(s: State): nat {
    Sum(|s.nodes|, i => WorkAt(s, i))
  }

  function MaxWork(n: nat): nat { if n == 0 then 0 else (3 * n - 1) * n }

  lemma PairWorkBound(p: Pair)
    requires PairInv(p)
    ensures PairWork(p) <= 3
  {
  }

  lemma WorkAtBound(s: State, i: nat)
    requires Inv(s) && i < |s.nodes|
    ensures WorkAt(s, i) <= 3 * |s.nodes| - 1
  {
    var f := (j: nat) => WorkOn(s, i, j);
    forall j: nat | j < |s.nodes| ensures f(j) <= if j == i then 0 else 3 {
      if j != i {
        PairWorkBound(View(s, i, j));
      }
    }
    SumBound(|s.nodes|, f, 3, i);
    assert WorkAt(s, i) == NodeWork(s.nodes[i]) + Sum(|s.nodes|, f);
  }

  lemma WorkBound(s: State)
    requires Inv(s)
    ensures Work(s) <= MaxWork(|s.nodes|)
  {
    var n := |s.nodes|;
    if n > 0 {
      var f := (i: nat) => WorkAt(s, i);
      var c: nat := 3 * n - 1;
      forall i: nat | i < n ensures f(i) <= c { WorkAtBound(s, i); }
      SumBound(n, f, c, n);
      assert Work(s) == Sum(n, f);
    }
  }

  lemma PairWorkTakeRequest(p: Pair)
    requires PairInv(p) && p.yx != [] && p.yx[0].Request?
    ensures PairWork(Do(p, ATake)) <= PairWork(p)
    ensures PairWork(Flip(Do(p, ATake))) < PairWork(Flip(p))
  {
    assert p.yx == [p.yx[0]] + p.yx[1..];
    assert p.yx[0] in p.yx && p.yx[0].seqNo == p.y.seqNo;
    CountsAppend(p.xy, [Reply]);
    CountsAppend(p.xy, [Reply, Request(p.x.seqNo)]);
    CountsAppend([Reply], [Request(p.x.seqNo)]);
    assert [Reply] + [Request(p.x.seqNo)] == [Reply, Request(p.x.seqNo)];
  }

  lemma PairWorkTakeReply(p: Pair)
    requires PairInv(p) && p.yx != [] && p.yx[0].Reply?
    ensures PairWork(Do(p, ATake)) < PairWork(p)
    ensures PairWork(Flip(Do(p, ATake))) <= PairWork(Flip(p))
  {
  }

  lemma PairWorkStep(p: Pair, act: Act)
    requires PairInv(p) && Able(p, act) && !act.AAsk?
    ensures PairWork(Do(p, act)) <= PairWork(p)
    ensures PairWork(Flip(Do(p, act))) <= PairWork(Flip(p))
    ensures act.ATake? && p.yx[0].Reply? ==> PairWork(Do(p, act)) < PairWork(p)
    ensures act.ATake? && p.yx[0].Request? ==> PairWork(Flip(Do(p, act))) < PairWork(Flip(p))
  {
    match act {
      case ARelease => CountsAppend(p.xy, [Reply]);
      case ATake => if p.yx[0].Request? { PairWorkTakeRequest(p); } else { PairWorkTakeReply(p); }
      case _ =>
    }
  }

  lemma WorkOnStep(s: State, e: Event, i: nat, j: nat)
    requires Inv(s) && Enabled(s, e) && !e.Ask?
    ensures WorkOn(Apply(s, e), i, j) <= WorkOn(s, i, j)
    ensures e.Deliver? && s.net[e.src][e.dst][0].Reply? && i == e.dst && j == e.src ==>
      WorkOn(Apply(s, e), i, j) < WorkOn(s, i, j)
    ensures e.Deliver? && s.net[e.src][e.dst][0].Request? && i == e.src && j == e.dst ==>
      WorkOn(Apply(s, e), i, j) < WorkOn(s, i, j)
  {
    StepInv(s, e);
    if i < |s.nodes| && j < |s.nodes| && i != j {
      Project(s, e, i, j);
      Project(s, e, j, i);
      assert PairInv(View(s, i, j)) && PairInv(View(s, j, i));
      if i == Actor(e) {
        PairWorkStep(View(s, i, j), ActOn(s, e, j));
      } else if j == Actor(e) {
        PairWorkStep(View(s, j, i), ActOn(s, e, i));
        assert View(Apply(s, e), i, j) == Flip(View(Apply(s, e), j, i));
      }
    }
  }

  /** The node whose work a step lowers: the sender of a REQUEST delivered, else the node that acts. */
  ghost function Payer(s: State, e: Event): nat
    requires Enabled(s, e)
  {
    if e.Deliver? && s.net[e.src][e.dst][0].Request? then e.src else Actor(e)
  }

  lemma WorkAtStep(s: State, e: Event, i: nat)
    requires Inv(s) && Enabled(s, e) && !e.Ask? && i < |s.nodes|
    ensures WorkAt(Apply(s, e), i) <= WorkAt(s, i)
    ensures i == Payer(s, e) ==> WorkAt(Apply(s, e), i) < WorkAt(s, i)
  {
    var s' := Apply(s, e);
    var f, g := (j: nat) => WorkOn(s', i, j), (j: nat) => WorkOn(s, i, j);
    forall j: nat ensures f(j) <= g(j) { WorkOnStep(s, e, i, j); }
    if e.Deliver? && i == Payer(s, e) {
      var j := if i == e.src then e.dst else e.src;
      WorkOnStep(s, e, i, j);
      assert f(j) < g(j);
    }
    SumMonotone(|s.nodes|, f, g);
    NodeWorkStep(s, e, i);
  }

  lemma NodeWorkStep(s: State, e: Event, i: nat)
    requires Inv(s) && Enabled(s, e) && !e.Ask? && i < |s.nodes|
    ensures NodeWork(Apply(s, e).nodes[i]) <= NodeWork(s.nodes[i])
    ensures !e.Deliver? && i == Actor(e) ==> NodeWork(Apply(s, e).nodes[i]) < NodeWork(s.nodes[i])
  {
  }

  /** Every step that is not a new request lowers the work left. */
  lemma WorkStep(s: State, e: Event)
    requires Inv(s) && Enabled(s, e) && !e.Ask?
    ensures Work(Apply(s, e)) < Work(s)
  {
    var s' := Apply(s, e);
    var f, g := (i: nat) => WorkAt(s', i), (i: nat) => WorkAt(s, i);
    forall i: nat | i < |s.nodes| ensures f(i) <= g(i) && (i == Payer(s, e) ==> f(i) < g(i)) {
      WorkAtStep(s, e, i);
    }
    var payer := Payer(s, e);
    assert payer < |s.nodes| && f(payer) < g(payer);
    SumMonotone(|s.nodes|, f, g);
    assert Work(s') == Sum(|s.nodes|, f) && Work(s) == Sum(|s.nodes|, g);
  }

  // ---------------------------------------------------------------- runs without new requests

  function Entries(es: seq<Event>, i: nat): nat {
    if es == [] then 0 else Ind(es[0] == Enter(i)) + Entries(es[1..], i)
  }

  ghost predicate NoAsk(es: seq<Event>) { forall e <- es :: !e.Ask? }

  lemma {:induction false} WorkRun(s: State, es: seq<Event>, i: nat)
    requires Inv(s) && Run(s, es) && NoAsk(es) && i < |s.nodes|
    ensures |es| + Work(After(s, es)) <= Work(s)
    ensures |After(s, es).nodes| == |s.nodes|
    ensures Entries(es, i) + Ind(After(s, es).nodes[i].waiting) == Ind(s.nodes[i].waiting)
    decreases |es|
  {
    if es != [] {
      StepInv(s, es[0]);
      WorkStep(s, es[0]);
      WorkRun(Apply(s, es[0]), es[1..], i);
    }
  }

  /**
   Once nobody asks any more, every run stops after at most n(3n-1) steps; when it can go no
   further everything is idle, and exactly the waiters have entered, once each.
  */
  lemma Drains(s: State, es: seq<Event>)
    requires Inv(s) && Run(s, es) && NoAsk(es)
    ensures |es| <= MaxWork(|s.nodes|)
    ensures Inv(After(s, es)) && |After(s, es).nodes| == |s.nodes|
    ensures (forall e :: Enabled(After(s, es), e) ==> e.Ask?) ==>
      Idle(After(s, es)) && forall i :: 0 <= i < |s.nodes| ==> Entries(es, i) == Ind(s.nodes[i].waiting)
  {
    RunInv(s, es);
    WorkBound(s);
    EnabledIffPending(After(s, es));
    if s.nodes == [] {
      NothingWithoutNodes(s, es);
    } else {
      WorkRun(s, es, 0);
    }
    forall i: nat | i < |s.nodes|
      ensures Entries(es, i) + Ind(After(s, es).nodes[i].waiting) == Ind(s.nodes[i].waiting)
    {
      WorkRun(s, es, i);
    }
  }

  lemma NothingWithoutNodes(s: State, es: seq<Event>)
    requires Run(s, es) && s.nodes == []
    ensures es == []
  {
  }
}

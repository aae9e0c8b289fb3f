/**
 The whole system: n nodes, one FIFO channel for every ordered pair of nodes, and the
 steps the nodes take.  Safety is proved one pair of nodes at a time: `View` is
 everything two nodes share, `Act` is what a step does to it.
*/
module RicartAgrawalaSystem {
  import opened Numbers
  import opened RicartAgrawalaNode

  datatype State = State(nodes: seq<Node>, net: seq<seq<seq<Message>>>)

  datatype Event =
    | Ask(i: nat)
    | Deliver(src: nat, dst: nat)
    | Enter(i: nat)
    | Release(i: nat)

  ghost predicate Shaped(s: State) {
    var n := |s.nodes|;
    && |s.net| == n
    && (forall i :: 0 <= i < n ==> WellFormed(s.nodes[i], n))
    && (forall i :: 0 <= i < n ==> |s.net[i]| == n)
    && (forall i :: 0 <= i < n ==> s.net[i][i] == [])
  }

  function Init(n: nat): State {
    State(seq(n, _ => InitNode(n)), seq(n, _ => seq(n, _ => [])))
  }

  ghost predicate Enabled(s: State, e: Event) {
    var n := |s.nodes|;
    && Shaped(s)
    && match e
       case Ask(i) => i < n && !s.nodes[i].using && !s.nodes[i].waiting
       case Deliver(src, dst) => src < n && dst < n && s.net[src][dst] != []
       case Enter(i) => i < n && s.nodes[i].waiting && AllGranted(s.nodes[i], i)
       case Release(i) => i < n && s.nodes[i].using
  }

  function Actor(e: Event): nat {
    match e
    case Ask(i) => i
    case Deliver(_, dst) => dst
    case Enter(i) => i
    case Release(i) => i
  }

  /** What the acting node does. */
  ghost function NodeStep(s: State, e: Event): (r: Step)
    requires Shaped(s) && Actor(e) < |s.nodes|
    requires e.Deliver? ==> e.src < |s.nodes| && s.net[e.src][e.dst] != []
  {
    var nd := s.nodes[Actor(e)];
    match e
    case Ask(i) => AskStep(nd, i)
    case Enter(i) => EnterStep(nd)
    case Release(i) => ReleaseStep(nd, i)
    case Deliver(src, dst) =>
      match s.net[src][dst][0]
      case Request(k) => TreatRequestStep(nd, dst, k, src)
      case Reply => TakeReplyStep(nd, src)
  }

  function Take(net: seq<seq<seq<Message>>>, src: nat, dst: nat): seq<seq<seq<Message>>>
    requires src < |net| && dst < |net[src]| && net[src][dst] != []
  {
    net[src := net[src][dst := net[src][dst][1..]]]
  }

  function Post(net: seq<seq<seq<Message>>>, i: nat, out: Outbox): seq<seq<seq<Message>>>
    requires i < |net| && |net[i]| == |out|
  {
    net[i := seq(|out|, j requires 0 <= j < |out| => net[i][j] + out[j])]
  }

  /** One step; Enter is also defined where its guard fails, for the split form of entering. */
  ghost function Apply(s: State, e: Event): (s': State)
    requires Shaped(s) && Actor(e) < |s.nodes|
    requires e.Deliver? ==> e.src < |s.nodes| && s.net[e.src][e.dst] != []
    ensures |s'.nodes| == |s.nodes|
  {
    var r := NodeStep(s, e);
    var net := if e.Deliver? then Take(s.net, e.src, e.dst) else s.net;
    State(s.nodes[Actor(e) := r.node], Post(net, Actor(e), r.out))
  }

  // ---------------------------------------------------------------- one pair of nodes

  datatype Side = Side(id: nat, seqNo: nat, hgst: nat, has: bool, defers: bool, using: bool, waiting: bool)

  /** All that nodes x and y share: their fields about each other and their two channels. */
  datatype Pair = Pair(x: Side, y: Side, xy: seq<Message>, yx: seq<Message>)

  datatype Act = AAsk | AEnter | ARelease | ATake | ARaise(hgst: nat) | ASkip

  function SideOf(nd: Node, me: nat, j: nat): Side
    requires j < |nd.A| && j < |nd.deferred|
  {
    Side(me, nd.ourSeq, nd.hgstSeq, nd.A[j], nd.deferred[j], nd.using, nd.waiting)
  }

  ghost function View(s: State, i: nat, j: nat): Pair
    requires Shaped(s) && i < |s.nodes| && j < |s.nodes|
  {
    Pair(SideOf(s.nodes[i], i, j), SideOf(s.nodes[j], j, i), s.net[i][j], s.net[j][i])
  }

  function Flip(p: Pair): Pair { Pair(p.y, p.x, p.yx, p.xy) }

  predicate Prior(a: Side, b: Side) { Before(a.seqNo, a.id, b.seqNo, b.id) }

  predicate Able(p: Pair, act: Act) {
    match act
    case AAsk => !p.x.using && !p.x.waiting
    case AEnter => p.x.waiting && p.x.has
    case ARelease => p.x.using
    case ATake => p.yx != []
    case ARaise(h) => p.x.hgst <= h
    case ASkip => true
  }

  /** Node x acts on the pair. */
  function Do(p: Pair, act: Act): Pair
    requires act.ATake? ==> p.yx != []
  {
    match act
    case AAsk =>
      var k := p.x.hgst + 1;
      p.(x := p.x.(waiting := true, seqNo := k), xy := p.xy + (if p.x.has then [] else [Request(k)]))
    case AEnter => p.(x := p.x.(waiting := false, using := true))
    case ARelease =>
      p.(x := p.x.(using := false, has := p.x.has && !p.x.defers, defers := false),
         xy := p.xy + (if p.x.defers then [Reply] else []))
    case ARaise(h) => p.(x := p.x.(hgst := h))
    case ASkip => p
    case ATake =>
      var q := p.(yx := p.yx[1..]);
      match p.yx[0]
      case Reply => q.(x := p.x.(has := true))
      case Request(k) =>
        var x := p.x.(hgst := Max(p.x.hgst, k));
        if p.x.using || (p.x.waiting && Before(p.x.seqNo, p.x.id, k, p.y.id)) then
          q.(x := x.(defers := true))
        else
          q.(x := x.(has := false),
             xy := p.xy + (if p.x.waiting && p.x.has then [Reply, Request(p.x.seqNo)] else [Reply]))
  }

  ghost function ActOn(s: State, e: Event, j: nat): Act
    requires Enabled(s, e)
  {
    match e
    case Ask(_) => AAsk
    case Enter(_) => AEnter
    case Release(_) => ARelease
    case Deliver(src, dst) =>
      if src == j then ATake
      else match s.net[src][dst][0]
        case Reply => ASkip
        case Request(k) => ARaise(Max(s.nodes[dst].hgstSeq, k))
  }

  lemma ProjectOwn(s: State, e: Event, j: nat)
    requires Enabled(s, e) && j < |s.nodes| && j != Actor(e) && Shaped(Apply(s, e)) && !e.Deliver?
    ensures Able(View(s, Actor(e), j), ActOn(s, e, j))
    ensures View(Apply(s, e), Actor(e), j) == Do(View(s, Actor(e), j), ActOn(s, e, j))
  {
    var p' := Do(View(s, Actor(e), j), ActOn(s, e, j));
    assert Apply(s, e).net[Actor(e)][j] == p'.xy;
  }

  lemma ProjectDelivery(s: State, src: nat, i: nat, j: nat)
    requires Enabled(s, Deliver(src, i)) && j < |s.nodes| && j != i && Shaped(Apply(s, Deliver(src, i)))
    ensures var act := ActOn(s, Deliver(src, i), j);
      && Able(View(s, i, j), act)
      && View(Apply(s, Deliver(src, i)), i, j) == Do(View(s, i, j), act)
  {
    var s' := Apply(s, Deliver(src, i));
    var p' := Do(View(s, i, j), ActOn(s, Deliver(src, i), j));
    assert s'.net[i][j] == p'.xy;
    assert s'.net[j][i] == p'.yx;
  }

  lemma ProjectBystander(s: State, e: Event, i: nat, j: nat)
    requires Enabled(s, e) && i < |s.nodes| && j < |s.nodes| && i != j && Shaped(Apply(s, e))
    requires i != Actor(e) && j != Actor(e)
    ensures View(Apply(s, e), i, j) == View(s, i, j)
  {
  }

  /** A step of the system is, on every pair, an act of one of the two nodes or nothing. */
  lemma Project(s: State, e: Event, i: nat, j: nat)
    requires Enabled(s, e) && i < |s.nodes| && j < |s.nodes| && i != j
    ensures Shaped(Apply(s, e))
    ensures i == Actor(e) ==>
      Able(View(s, i, j), ActOn(s, e, j)) && View(Apply(s, e), i, j) == Do(View(s, i, j), ActOn(s, e, j))
    ensures i != Actor(e) && j != Actor(e) ==> View(Apply(s, e), i, j) == View(s, i, j)
  {
    Keeps(s, e);
    if i == Actor(e) {
      if e.Deliver? { ProjectDelivery(s, e.src, i, j); } else { ProjectOwn(s, e, j); }
    } else if j != Actor(e) {
      ProjectBystander(s, e, i, j);
    }
  }

  lemma Keeps(s: State, e: Event)
    requires Enabled(s, e)
    ensures Shaped(Apply(s, e))
  {
  }

  // ---------------------------------------------------------------- the invariant of a pair

  function Requests(c: seq<Message>): nat {
    if c == [] then 0 else (if c[0].Request? then 1 else 0) + Requests(c[1..])
  }

  function Replies(c: seq<Message>): nat {
    if c == [] then 0 else (if c[0].Reply? then 1 else 0) + Replies(c[1..])
  }

  lemma {:induction false} CountsAppend(c: seq<Message>, d: seq<Message>)
    ensures Requests(c + d) == Requests(c) + Requests(d)
    ensures Replies(c + d) == Replies(c) + Replies(d)
  {
    if c == [] {
      assert c + d == d;
    } else {
      assert (c + d)[1..] == c[1..] + d;
      CountsAppend(c[1..], d);
    }
  }

  predicate CarryOnly(c: seq<Message>, k: nat) {
    forall m <- c :: m.Request? ==> m.seqNo == k
  }

  /** x has y's permission, or it is on its way. */
  predicate Granted(p: Pair) { p.x.has || Replies(p.yx) > 0 }

  /** x's request to y that is neither granted nor refused: in flight, deferred, or answered. */
  function Outstanding(p: Pair): nat {
    Requests(p.xy) + Ind(p.y.defers) + Replies(p.yx)
  }

  /** What holds of x's request to y and of the permission y owes x. */
  predicate Half(p: Pair) {
    && p.x.id != p.y.id
    && Outstanding(p) == Ind(p.x.waiting && !p.x.has)
    && CarryOnly(p.xy, p.x.seqNo)
    && (p.x.using ==> p.x.has && !p.x.waiting)
    && (p.y.defers ==> p.x.seqNo <= p.y.hgst && (p.y.using || (p.y.waiting && Prior(p.y, p.x))))
    && (Replies(p.yx) > 0 ==> p.x.seqNo <= p.y.hgst && (p.y.waiting ==> Prior(p.x, p.y)))
  }

  predicate PairInv(p: Pair) {
    Half(p) && Half(Flip(p)) && !(Granted(p) && Granted(Flip(p)))
  }

  lemma PairStep(p: Pair, act: Act)
    requires PairInv(p) && Able(p, act)
    ensures PairInv(Do(p, act))
  {
    match act {
      case AAsk => PairAsk(p);
      case ARelease => PairRelease(p);
      case ATake => if p.yx[0].Reply? { PairTakeReply(p); } else { PairTakeRequest(p); }
      case _ =>
    }
  }

  lemma PairAsk(p: Pair)
    requires PairInv(p) && Able(p, AAsk)
    ensures PairInv(Do(p, AAsk))
  {
    CountsAppend(p.xy, [Request(p.x.hgst + 1)]);
  }

  lemma PairRelease(p: Pair)
    requires PairInv(p) && Able(p, ARelease)
    ensures PairInv(Do(p, ARelease))
  {
    CountsAppend(p.xy, [Reply]);
  }

  lemma PairTakeReply(p: Pair)
    requires PairInv(p) && p.yx != [] && p.yx[0].Reply?
    ensures PairInv(Do(p, ATake))
  {
  }

  lemma PairTakeRequest(p: Pair)
    requires PairInv(p) && p.yx != [] && p.yx[0].Request?
    ensures PairInv(Do(p, ATake))
  {
    assert p.yx[0] in p.yx && p.yx[0].seqNo == p.y.seqNo;
    assert p.y.waiting && !p.y.has;
    if p.x.using || (p.x.waiting && Prior(p.x, p.y)) {
      PairDefer(p);
    } else {
      PairGrant(p);
    }
  }

  lemma PairDefer(p: Pair)
    requires PairInv(p) && p.yx != [] && p.yx[0].Request? && p.yx[0].seqNo == p.y.seqNo
    requires p.x.using || (p.x.waiting && Prior(p.x, p.y))
    ensures PairInv(Do(p, ATake))
  {
  }

  lemma PairGrant(p: Pair)
    requires PairInv(p) && p.yx != [] && p.yx[0].Request? && p.yx[0].seqNo == p.y.seqNo
    requires !p.x.using && !(p.x.waiting && Prior(p.x, p.y))
    ensures PairInv(Do(p, ATake))
  {
    assert p.yx == [p.yx[0]] + p.yx[1..];
    CountsAppend(p.xy, [Reply]);
    CountsAppend(p.xy, [Reply, Request(p.x.seqNo)]);
    CountsAppend([Reply], [Request(p.x.seqNo)]);
    assert [Reply] + [Request(p.x.seqNo)] == [Reply, Request(p.x.seqNo)];
  }

  // ---------------------------------------------------------------- the invariant of the system

  ghost predicate Inv(s: State) {
    && Shaped(s)
    && forall i: nat, j: nat :: i < |s.nodes| && j < |s.nodes| && i != j ==> PairInv(View(s, i, j))
  }

  lemma InitInv(n: nat)
    ensures Inv(Init(n))
  {
  }

  lemma StepInv(s: State, e: Event)
    requires Inv(s) && Enabled(s, e)
    ensures Inv(Apply(s, e))
  {
    Keeps(s, e);
    var s' := Apply(s, e);
    forall i: nat, j: nat | i < |s.nodes| && j < |s.nodes| && i != j
      ensures PairInv(View(s', i, j))
    {
      Project(s, e, i, j);
      Project(s, e, j, i);
      if i == Actor(e) {
        PairStep(View(s, i, j), ActOn(s, e, j));
      } else if j == Actor(e) {
        PairStep(View(s, j, i), ActOn(s, e, i));
        assert View(s', i, j) == Flip(View(s', j, i));
      }
    }
  }

  // ---------------------------------------------------------------- runs

  ghost predicate Run(s: State, es: seq<Event>)
    decreases |es|
  {
    es == [] || (Enabled(s, es[0]) && Run(Apply(s, es[0]), es[1..]))
  }

  ghost function After(s: State, es: seq<Event>): State
    requires Run(s, es)
    decreases |es|
  {
    if es == [] then s else After(Apply(s, es[0]), es[1..])
  }

  lemma {:induction false} RunInv(s: State, es: seq<Event>)
    requires Inv(s) && Run(s, es)
    ensures Inv(After(s, es)) && |After(s, es).nodes| == |s.nodes|
    decreases |es|
  {
    if es != [] {
      StepInv(s, es[0]);
      RunInv(Apply(s, es[0]), es[1..]);
    }
  }

  lemma ReachableInv(n: nat, es: seq<Event>)
    requires Run(Init(n), es)
    ensures Inv(After(Init(n), es)) && |After(Init(n), es).nodes| == n
  {
    InitInv(n);
    RunInv(Init(n), es);
  }

  /** Mutual exclusion, for any number of nodes and every interleaving of their steps. */
  lemma MutualExclusion(n: nat, es: seq<Event>)
    requires Run(Init(n), es)
    ensures var t := After(Init(n), es);
      forall i, j :: 0 <= i < j < |t.nodes| ==> !(t.nodes[i].using && t.nodes[j].using)
  {
    ReachableInv(n, es);
    var t := After(Init(n), es);
    forall i, j | 0 <= i < j < n ensures !(t.nodes[i].using && t.nodes[j].using) {
      assert PairInv(View(t, i, j));
    }
  }

  /** Two nodes never both hold, or are about to receive, each other's permission. */
  lemma PermissionExclusive(n: nat, es: seq<Event>, i: nat, j: nat)
    requires Run(Init(n), es) && i < n && j < n && i != j
    ensures var t := After(Init(n), es);
      && Shaped(t) && |t.nodes| == n
      && !((t.nodes[i].A[j] || Reply in t.net[j][i]) && (t.nodes[j].A[i] || Reply in t.net[i][j]))
  {
    ReachableInv(n, es);
    var t := After(Init(n), es);
    assert PairInv(View(t, i, j));
    InFlight(t.net[j][i]);
    InFlight(t.net[i][j]);
  }

  lemma {:induction false} InFlight(c: seq<Message>)
    ensures Reply in c <==> Replies(c) > 0
    ensures (exists m <- c :: m.Request?) <==> Requests(c) > 0
  {
    if c != [] {
      assert c == [c[0]] + c[1..];
      InFlight(c[1..]);
    }
  }

  /**
   A waiting node without j's permission has exactly one request to j outstanding, in one
   place; any other node has none.  A REQUEST in flight carries its sender's current number.
  */
  lemma RequestAccounting(n: nat, es: seq<Event>, i: nat, j: nat)
    requires Run(Init(n), es) && i < n && j < n && i != j
    ensures var t := After(Init(n), es);
      && Shaped(t) && |t.nodes| == n
      && Requests(t.net[i][j]) + Ind(t.nodes[j].deferred[i]) + Replies(t.net[j][i])
         == Ind(t.nodes[i].waiting && !t.nodes[i].A[j])
      && (forall m <- t.net[i][j] :: m.Request? ==> m.seqNo == t.nodes[i].ourSeq)
  {
    ReachableInv(n, es);
    assert PairInv(View(After(Init(n), es), i, j));
  }

  // ---------------------------------------------------------------- who goes first

  /** The REQUEST at the head of a channel is its sender's present one. */
  lemma HeadIsCurrent(s: State, src: nat, dst: nat)
    requires Inv(s) && src < |s.nodes| && dst < |s.nodes|
    requires s.net[src][dst] != [] && s.net[src][dst][0].Request?
    ensures src != dst && s.nodes[src].waiting && !s.nodes[src].A[dst]
    ensures s.net[src][dst][0].seqNo == s.nodes[src].ourSeq
  {
    assert src != dst by { assert s.net[src][src] == []; }
    var p := View(s, src, dst);
    assert PairInv(p);
    assert p.xy[0] in p.xy;
  }

  /**
   Node i treats j's REQUEST.  If i is using, or waits with a lower number, or with the same number and a
   lower id, j has to wait and nothing is sent.  Otherwise i gives its permission away and says so; if it
   waits and had j's permission, it then asks for it again.
  */
  lemma LowerNumberGoesFirst(s: State, i: nat, j: nat)
    requires Inv(s) && Enabled(s, Deliver(j, i)) && s.net[j][i][0].Request?
    ensures var a, b, t := s.nodes[i], s.nodes[j], Apply(s, Deliver(j, i));
      if a.using || (a.waiting && (a.ourSeq < b.ourSeq || (a.ourSeq == b.ourSeq && i < j))) then
        t.nodes[i].deferred[j] && t.nodes[i].A == a.A && t.net[i][j] == s.net[i][j]
      else
        && !t.nodes[i].A[j] && t.nodes[i].deferred == a.deferred
        && t.net[i][j] == s.net[i][j] + (if a.waiting && a.A[j] then [Reply, Request(a.ourSeq)] else [Reply])
  {
    HeadIsCurrent(s, j, i);
  }

  /** Of two nodes that wait with the same number the one with the lower id makes the other wait, and is granted. */
  lemma LowerIdGoesFirst(s: State, i: nat, j: nat)
    requires Inv(s) && i < j < |s.nodes| && s.nodes[i].waiting && s.nodes[j].waiting
    requires s.nodes[i].ourSeq == s.nodes[j].ourSeq
    ensures Enabled(s, Deliver(j, i)) && s.net[j][i][0].Request? ==>
      var t := Apply(s, Deliver(j, i)); t.nodes[i].deferred[j] && t.net[i][j] == s.net[i][j]
    ensures Enabled(s, Deliver(i, j)) && s.net[i][j][0].Request? ==>
      var t := Apply(s, Deliver(i, j));
      |t.net[j][i]| > |s.net[j][i]| && t.net[j][i][|s.net[j][i]|] == Reply
  {
    assert PairInv(View(s, i, j));
    if Enabled(s, Deliver(j, i)) && s.net[j][i][0].Request? { LowerNumberGoesFirst(s, i, j); }
    if Enabled(s, Deliver(i, j)) && s.net[i][j][0].Request? { LowerNumberGoesFirst(s, j, i); }
  }
}

/**
 The order in which the program lets messages be treated.  What client a sends to client b, as a
 requester to b's arbiter or as an arbiter to the requester b, travels on one socket and is treated
 by one thread of b: message by message, and an INQUIRE that is not finished holds up what is behind
 it.  The safety theorems do without this order; the runs that break mutual exclusion obey it.
*/
module MaekawaOrder {
  import opened MaekawaNode
  import opened MaekawaSystem

  /** Who has sent a message: a requester, to an arbiter, or an arbiter. */
  datatype Side = FromRequester | FromArbiter

  /** order[a][b]: the senders of the messages from a to b that are not finished, oldest first. */
  type Order = seq<seq<seq<Side>>>

  /** The message that a step treats is the oldest one of its sender. */
  predicate AtHead(o: Order, e: Event) {
    match e
    case AtArbiter(i, j) => Oldest(o, i, j, FromRequester)
    case AtClient(i, j) => Oldest(o, j, i, FromArbiter)
    case Determine(i, j) => Oldest(o, j, i, FromArbiter)
    case Look(i, j) => Oldest(o, j, i, FromArbiter)
    case Yield(i, j) => Oldest(o, j, i, FromArbiter)
    case _ => true
  }

  predicate Oldest(o: Order, a: nat, b: nat, side: Side) {
    a < |o| && b < |o[a]| && o[a][b] != [] && o[a][b][0] == side
  }

  /** The step finishes a message from a to b. */
  ghost predicate Finishes(cfg: Config, s: State, e: Event, a: nat, b: nat)
    requires Shaped(cfg, s) && Enabled(cfg, s, e)
  {
    match e
    case AtArbiter(i, j) => a == i && b == j
    case AtClient(i, j) => a == j && b == i
    case Look(i, j) => a == j && b == i && !SomeFailed(s.clients[i], cfg.quorums[i])
    case Yield(i, j) => a == j && b == i
    case _ => false
  }

  ghost function Answered(cfg: Config, s: State, e: Event): Answer
    requires Shaped(cfg, s) && Enabled(cfg, s, e)
  {
    if e.AtArbiter? then ArbiterTakes(s.arbiters[e.j], e.i, s.up[e.i][e.j][0], cfg.maxSize).answer else Nothing
  }

  /** What a sends to b in the step. */
  ghost function Sends(cfg: Config, s: State, e: Event, a: nat, b: nat): seq<Side>
    requires Shaped(cfg, s) && Enabled(cfg, s, e)
  {
    match e
    case Ask(i) => if a == i && b in cfg.quorums[i] then [FromRequester] else []
    case Leave(i) => if a == i && b in cfg.quorums[i] then [FromRequester] else []
    case Yield(i, j) => if a == i && b == j then [FromRequester] else []
    case AtArbiter(i, j) =>
      var answer := Answered(cfg, s, e);
      if a == j && answer.To? && answer.dest == b then [FromArbiter] else []
    case _ => []
  }

  ghost function NextOrder(cfg: Config, s: State, e: Event, o: Order): Order
    requires Shaped(cfg, s) && Enabled(cfg, s, e) && AtHead(o, e)
  {
    var n := |cfg.quorums|;
    seq(n, a requires 0 <= a < n =>
      seq(n, b requires 0 <= b < n => Remaining(cfg, s, e, o, a, b) + Sends(cfg, s, e, a, b)))
  }

  ghost function Remaining(cfg: Config, s: State, e: Event, o: Order, a: nat, b: nat): seq<Side>
    requires Shaped(cfg, s) && Enabled(cfg, s, e) && AtHead(o, e)
  {
    if a >= |o| || b >= |o[a]| then []
    else if Finishes(cfg, s, e, a, b) then o[a][b][1..] else o[a][b]
  }

  ghost predicate InOrderFrom(cfg: Config, s: State, es: seq<Event>, o: Order)
    requires Run(cfg, s, es)
    decreases |es|
  {
    es == [] || (AtHead(o, es[0]) && InOrderFrom(cfg, Apply(cfg, s, es[0]), es[1..], NextOrder(cfg, s, es[0], o)))
  }

  function NoOrder(n: nat): Order { seq(n, _ => seq(n, _ => [])) }

  /** A run that the program can make, as far as the order of messages goes. */
  ghost predicate InOrder(cfg: Config, es: seq<Event>)
    requires Run(cfg, Init(cfg), es)
  {
    InOrderFrom(cfg, Init(cfg), es, NoOrder(|cfg.quorums|))
  }

  // ---------------------------------------------------------------- requesters' messages first

  function Times(k: nat, side: Side): seq<Side> { seq(k, _ => side) }

  /** k messages from a requester and then l from an arbiter. */
  function Mixed(k: nat, l: nat): seq<Side> { Times(k, FromRequester) + Times(l, FromArbiter) }

  /** The order in which every message from a requester is older than every message from an arbiter. */
  ghost function RequestersFirst(cfg: Config, s: State): Order
    requires Shaped(cfg, s)
  {
    var n := |cfg.quorums|;
    seq(n, a requires 0 <= a < n => seq(n, b requires 0 <= b < n => PairOrder(s, cfg, a, b)))
  }

  ghost function PairOrder(s: State, cfg: Config, a: nat, b: nat): seq<Side>
    requires Shaped(cfg, s) && a < |cfg.quorums| && b < |cfg.quorums|
  {
    Mixed(|s.up[a][b]|, |s.down[a][b]|)
  }

  /** The step keeps requesters' messages first, and treats the oldest message. */
  ghost predicate Orderly(cfg: Config, s: State, e: Event)
    requires Shaped(cfg, s) && Enabled(cfg, s, e)
  {
    match e
    case Ask(i) => forall b :: 0 <= b < |cfg.quorums| ==> s.down[i][b] == []
    case Leave(i) => forall b :: 0 <= b < |cfg.quorums| ==> s.down[i][b] == []
    case Enter(_) => true
    case AtArbiter(_, _) => true
    case AtClient(i, j) => s.up[j][i] == []
    case Determine(i, j) => s.up[j][i] == []
    case Look(i, j) => s.up[j][i] == []
    case Yield(i, j) => s.up[j][i] == [] && (if i == j then |s.down[i][j]| == 1 else s.down[i][j] == [])
  }

  lemma TimesMore(k: nat, side: Side)
    ensures Times(k + 1, side) == [side] + Times(k, side) == Times(k, side) + [side]
    ensures Times(0, side) == []
  {
  }

  lemma MixedGains(k: nat, l: nat)
    ensures Mixed(k, l) + [FromArbiter] == Mixed(k, l + 1)
    ensures l == 0 ==> Mixed(k, l) + [FromRequester] == Mixed(k + 1, l)
  {
    TimesMore(l, FromArbiter);
    TimesMore(k, FromRequester);
  }

  lemma MixedLoses(k: nat, l: nat)
    ensures k > 0 ==> Mixed(k, l)[0] == FromRequester && Mixed(k, l)[1..] == Mixed(k - 1, l)
    ensures k == 0 && l > 0 ==> Mixed(k, l)[0] == FromArbiter && Mixed(k, l)[1..] == Mixed(k, l - 1)
  {
  }

  lemma OrderlyAtHead(cfg: Config, s: State, e: Event)
    requires Shaped(cfg, s) && Enabled(cfg, s, e) && Orderly(cfg, s, e)
    ensures AtHead(RequestersFirst(cfg, s), e)
  {
    if e.AtArbiter? {
      MixedLoses(|s.up[e.i][e.j]|, |s.down[e.i][e.j]|);
    } else if OnOneLink(e) {
      MixedLoses(|s.up[e.j][e.i]|, |s.down[e.j][e.i]|);
    }
  }

  ghost predicate PairKept(cfg: Config, s: State, e: Event, a: nat, b: nat)
    requires Shaped(cfg, s) && Enabled(cfg, s, e) && AtHead(RequestersFirst(cfg, s), e)
    requires a < |cfg.quorums| && b < |cfg.quorums|
  {
    Shaped(cfg, Apply(cfg, s, e)) ==>
      Remaining(cfg, s, e, RequestersFirst(cfg, s), a, b) + Sends(cfg, s, e, a, b)
        == PairOrder(Apply(cfg, s, e), cfg, a, b)
  }

  lemma AskKeepsPair(cfg: Config, s: State, e: Event, a: nat, b: nat)
    requires Shaped(cfg, s) && Enabled(cfg, s, e) && Orderly(cfg, s, e) && (e.Ask? || e.Leave? || e.Enter?)
    requires a < |cfg.quorums| && b < |cfg.quorums|
    ensures PairKept(cfg, s, e, a, b)
  {
    MixedGains(|s.up[a][b]|, |s.down[a][b]|);
  }

  lemma ArbiterKeepsPair(cfg: Config, s: State, e: Event, a: nat, b: nat)
    requires Shaped(cfg, s) && Enabled(cfg, s, e) && AtHead(RequestersFirst(cfg, s), e) && e.AtArbiter?
    requires a < |cfg.quorums| && b < |cfg.quorums|
    ensures PairKept(cfg, s, e, a, b)
  {
    var k, l := |s.up[a][b]|, |s.down[a][b]|;
    MixedLoses(k, l);
    MixedGains(k, l);
    if k > 0 { MixedGains(k - 1, l); }
  }

  lemma ReadingKeepsPair(cfg: Config, s: State, e: Event, a: nat, b: nat)
    requires Shaped(cfg, s) && Enabled(cfg, s, e) && Orderly(cfg, s, e) && e.AtClient?
    requires AtHead(RequestersFirst(cfg, s), e)
    requires a < |cfg.quorums| && b < |cfg.quorums|
    ensures PairKept(cfg, s, e, a, b)
  {
    var k, l := |s.up[a][b]|, |s.down[a][b]|;
    MixedLoses(k, l);
  }

  lemma InquiryKeepsPair(cfg: Config, s: State, e: Event, a: nat, b: nat)
    requires Shaped(cfg, s) && Enabled(cfg, s, e) && Orderly(cfg, s, e) && (e.Determine? || e.Look?)
    requires AtHead(RequestersFirst(cfg, s), e)
    requires a < |cfg.quorums| && b < |cfg.quorums|
    ensures PairKept(cfg, s, e, a, b)
  {
    var k, l := |s.up[a][b]|, |s.down[a][b]|;
    MixedLoses(k, l);
  }

  lemma YieldKeepsPair(cfg: Config, s: State, e: Event, a: nat, b: nat)
    requires Shaped(cfg, s) && Enabled(cfg, s, e) && Orderly(cfg, s, e) && e.Yield?
    requires AtHead(RequestersFirst(cfg, s), e)
    requires a < |cfg.quorums| && b < |cfg.quorums|
    ensures PairKept(cfg, s, e, a, b)
  {
    var k, l := |s.up[a][b]|, |s.down[a][b]|;
    MixedLoses(k, l);
    MixedGains(k, l);
    if l > 0 { MixedGains(k, l - 1); }
  }

  /** An orderly step keeps requesters' messages first. */
  lemma OrderlyStep(cfg: Config, s: State, e: Event)
    requires Shaped(cfg, s) && Enabled(cfg, s, e) && Orderly(cfg, s, e) && Shaped(cfg, Apply(cfg, s, e))
    ensures AtHead(RequestersFirst(cfg, s), e)
    ensures NextOrder(cfg, s, e, RequestersFirst(cfg, s)) == RequestersFirst(cfg, Apply(cfg, s, e))
  {
    OrderlyAtHead(cfg, s, e);
    var n := |cfg.quorums|;
    var o, o' := NextOrder(cfg, s, e, RequestersFirst(cfg, s)), RequestersFirst(cfg, Apply(cfg, s, e));
    forall a: nat | a < n ensures o[a] == o'[a] {
      forall b: nat | b < n ensures o[a][b] == o'[a][b] {
        if e.AtArbiter? { ArbiterKeepsPair(cfg, s, e, a, b); }
        else if e.AtClient? { ReadingKeepsPair(cfg, s, e, a, b); }
        else if e.Yield? { YieldKeepsPair(cfg, s, e, a, b); }
        else if OnOneLink(e) { InquiryKeepsPair(cfg, s, e, a, b); }
        else { AskKeepsPair(cfg, s, e, a, b); }
      }
    }
  }

  // ---------------------------------------------------------------- runs of orderly steps

  /** A RELINQUISH is sent only while the grant is still recorded. */
  ghost predicate GrantRecorded(s: State, e: Event) {
    e.Yield? ==> e.i < |s.clients| && StandingOf(s, e.i, e.j) == GotLocked
  }

  ghost predicate AlwaysRecorded(cfg: Config, s: State, es: seq<Event>)
    requires Run(cfg, s, es)
    decreases |es|
  {
    es == [] || (GrantRecorded(s, es[0]) && AlwaysRecorded(cfg, Apply(cfg, s, es[0]), es[1..]))
  }

  ghost predicate OrderlyTo(cfg: Config, s: State, e: Event, t: State) {
    && Shaped(cfg, s) && Enabled(cfg, s, e) && Orderly(cfg, s, e) && GrantRecorded(s, e)
    && Shaped(cfg, t) && t == Apply(cfg, s, e)
  }

  /** The states ss, one after another, by the orderly steps es. */
  ghost predicate Path(cfg: Config, ss: seq<State>, es: seq<Event>) {
    && |ss| == |es| + 1 && Shaped(cfg, ss[0])
    && forall k {:trigger es[k]} :: 0 <= k < |es| ==> OrderlyTo(cfg, ss[k], es[k], ss[k + 1])
  }

  /** Some orderly steps lead from s to t, and no RELINQUISH among them is for a grant not recorded. */
  ghost predicate Leads(cfg: Config, s: State, t: State) {
    exists ss, es :: Path(cfg, ss, es) && ss[0] == s && ss[|es|] == t
  }

  lemma {:induction false} PathInOrder(cfg: Config, ss: seq<State>, es: seq<Event>)
    requires Path(cfg, ss, es)
    ensures Run(cfg, ss[0], es) && After(cfg, ss[0], es) == ss[|es|]
    ensures InOrderFrom(cfg, ss[0], es, RequestersFirst(cfg, ss[0])) && AlwaysRecorded(cfg, ss[0], es)
    decreases |es|
  {
    if es != [] {
      var rest := es[1..];
      assert OrderlyTo(cfg, ss[0], es[0], ss[1]);
      assert forall k {:trigger rest[k]} :: 0 <= k < |rest| ==> rest[k] == es[k + 1];
      PathInOrder(cfg, ss[1..], rest);
      OrderlyStep(cfg, ss[0], es[0]);
    }
  }

  lemma LeadsInOrder(cfg: Config, s: State, t: State) returns (es: seq<Event>)
    requires Leads(cfg, s, t)
    ensures Shaped(cfg, s) && Run(cfg, s, es) && After(cfg, s, es) == t
    ensures InOrderFrom(cfg, s, es, RequestersFirst(cfg, s)) && AlwaysRecorded(cfg, s, es)
  {
    var ss, events :| Path(cfg, ss, events) && ss[0] == s && ss[|events|] == t;
    PathInOrder(cfg, ss, events);
    es := events;
  }

  lemma LeadsShaped(cfg: Config, s: State, t: State)
    requires Leads(cfg, s, t)
    ensures Shaped(cfg, s) && Shaped(cfg, t)
  {
    var ss, es :| Path(cfg, ss, es) && ss[0] == s && ss[|es|] == t;
    if es != [] {
      assert OrderlyTo(cfg, ss[|es| - 1], es[|es| - 1], ss[|es|]);
    }
  }

  lemma Stay(cfg: Config, s: State)
    requires Shaped(cfg, s)
    ensures Leads(cfg, s, s)
  {
    assert Path(cfg, [s], []);
  }

  lemma One(cfg: Config, s: State, e: Event)
    requires Shaped(cfg, s) && Enabled(cfg, s, e) && Orderly(cfg, s, e) && Shaped(cfg, Apply(cfg, s, e))
    requires GrantRecorded(s, e)
    ensures Leads(cfg, s, Apply(cfg, s, e))
  {
    assert Path(cfg, [s, Apply(cfg, s, e)], [e]);
  }

  lemma JoinPaths(cfg: Config, ss: seq<State>, es: seq<Event>, ts: seq<State>, fs: seq<Event>)
    requires Path(cfg, ss, es) && Path(cfg, ts, fs) && ss[|es|] == ts[0]
    ensures Path(cfg, ss + ts[1..], es + fs)
  {
    var us, gs := ss + ts[1..], es + fs;
    forall k {:trigger gs[k]} | 0 <= k < |gs| ensures OrderlyTo(cfg, us[k], gs[k], us[k + 1]) {
      if k < |es| { assert gs[k] == es[k]; } else { assert gs[k] == fs[k - |es|]; }
    }
  }

  lemma Chain(cfg: Config, s: State, t: State, u: State)
    requires Leads(cfg, s, t) && Leads(cfg, t, u)
    ensures Leads(cfg, s, u)
  {
    var ss, es :| Path(cfg, ss, es) && ss[0] == s && ss[|es|] == t;
    var ts, fs :| Path(cfg, ts, fs) && ts[0] == t && ts[|fs|] == u;
    JoinPaths(cfg, ss, es, ts, fs);
    assert (ss + ts[1..])[0] == s && (ss + ts[1..])[|es + fs|] == u;
  }
}

/**
 The whole system: every client is a requester and an arbiter, with one FIFO channel from
 each requester to each arbiter and one back.  The invariant follows, for each requester and
 arbiter, the single token that stands for the arbiter's lock.
*/
module MaekawaSystem {
  import opened Numbers
  import opened MessageQueue
  import opened MaekawaNode
  import opened MaekawaArbiter

  /** The quorum of each client and the capacity of every waiting queue. */
  datatype Config = Config(quorums: seq<set<nat>>, maxSize: nat)

  datatype Phase = Outside | Waiting | Inside

  /**
   How far a requester has come with an INQUIRE: its handler waits until it can determine the
   result, looks at the standings again, and gives the lock back, each time under the mutex anew.
  */
  datatype Stage = Unread | Determined | Yielding

  datatype State = State(
    phase: seq<Phase>,
    clients: seq<Requester>,
    arbiters: seq<Arbiter>,
    up: seq<seq<seq<Up>>>,      // up[i][j]: from requester i to arbiter j
    down: seq<seq<seq<Down>>>,  // down[j][i]: from arbiter j to requester i
    stages: seq<seq<Stage>>)    // stages[i][j]: requester i's handling of arbiter j's INQUIRE

  datatype Event =
    | Ask(i: nat)
    | Enter(i: nat)
    | Leave(i: nat)
    | AtArbiter(i: nat, j: nat)  // arbiter j takes requester i's next message
    | AtClient(i: nat, j: nat)   // requester i takes arbiter j's next message, LOCKED or FAILED
    | Determine(i: nat, j: nat)  // requester i can determine what to do with arbiter j's INQUIRE
    | Look(i: nat, j: nat)       // and decides
    | Yield(i: nat, j: nat)      // and gives the lock back

  ghost predicate GoodConfig(cfg: Config) {
    var n := |cfg.quorums|;
    && n <= cfg.maxSize + 1
    && (forall i :: 0 <= i < n ==> forall j <- cfg.quorums[i] :: j < n)
  }

  ghost predicate PairwiseIntersecting(cfg: Config) {
    forall i, k :: 0 <= i < k < |cfg.quorums| ==> cfg.quorums[i] * cfg.quorums[k] != {}
  }

  function Init(cfg: Config): State {
    var n := |cfg.quorums|;
    State(seq(n, _ => Outside),
          seq(n, i requires 0 <= i < n => Requester(0, 0, ForAll(cfg.quorums[i], NoReply))),
          seq(n, _ => InitArbiter(n)),
          seq(n, _ => seq(n, _ => [])),
          seq(n, _ => seq(n, _ => [])),
          seq(n, _ => seq(n, _ => Unread)))
  }

  ghost predicate Shaped(cfg: Config, s: State) {
    var n := |cfg.quorums|;
    && |s.phase| == |s.clients| == |s.arbiters| == |s.up| == |s.down| == |s.stages| == n
    && (forall i :: 0 <= i < n ==> |s.up[i]| == |s.down[i]| == |s.stages[i]| == n)
    && (forall i :: 0 <= i < n ==> ArbiterShape(s.arbiters[i], n))
    && (forall i :: 0 <= i < n ==> s.clients[i].replies.Keys == cfg.quorums[i])
  }

  ghost predicate Enabled(cfg: Config, s: State, e: Event)
    requires Shaped(cfg, s)
  {
    var n := |cfg.quorums|;
    match e
    case Ask(i) => i < n && s.phase[i] == Outside
    case Enter(i) => i < n && s.phase[i] == Waiting && AllLocked(s.clients[i], cfg.quorums[i])
    case Leave(i) => i < n && s.phase[i] == Inside
    case AtArbiter(i, j) => i < n && j < n && s.up[i][j] != []
    case AtClient(i, j) => i < n && j < n && s.down[j][i] != [] && !s.down[j][i][0].Inquire?
    case Determine(i, j) =>
      && i < n && j < n && s.down[j][i] != [] && s.down[j][i][0].Inquire? && s.stages[i][j] == Unread
      && (SomeFailed(s.clients[i], cfg.quorums[i]) || AllLocked(s.clients[i], cfg.quorums[i]))
    case Look(i, j) => i < n && j < n && s.down[j][i] != [] && s.stages[i][j] == Determined
    case Yield(i, j) => i < n && j < n && s.down[j][i] != [] && s.stages[i][j] == Yielding
  }

  /**
   A RELINQUISH is sent while the grant that the INQUIRE asks about is still recorded, and before
   the requester has entered.  The handler does not test this.
  */
  ghost predicate Timely(cfg: Config, s: State, e: Event)
    requires Shaped(cfg, s) && Enabled(cfg, s, e)
  {
    e.Yield? ==> StandingOf(s, e.i, e.j) == GotLocked && s.phase[e.i] == Waiting
  }

  function StandingOf(s: State, i: nat, j: nat): Standing
    requires i < |s.clients|
  {
    if j in s.clients[i].replies then s.clients[i].replies[j] else NoReply
  }

  function PostAll(c: seq<seq<seq<Up>>>, i: nat, quorum: set<nat>, m: Up): seq<seq<seq<Up>>>
    requires i < |c|
  {
    c[i := seq(|c[i]|, j requires 0 <= j < |c[i]| => if j in quorum then c[i][j] + [m] else c[i][j])]
  }

  function PostUp(c: seq<seq<seq<Up>>>, i: nat, j: nat, m: Up): seq<seq<seq<Up>>>
    requires i < |c| && j < |c[i]|
  {
    c[i := c[i][j := c[i][j] + [m]]]
  }

  function Deliver(c: seq<seq<seq<Down>>>, j: nat, answer: Answer): seq<seq<seq<Down>>>
    requires j < |c|
  {
    match answer
    case Nothing => c
    case To(k, m) => if 0 <= k < |c[j]| then c[j := c[j][k := c[j][k] + [m]]] else c
  }

  function Take<T>(c: seq<seq<seq<T>>>, i: nat, j: nat): seq<seq<seq<T>>>
    requires i < |c| && j < |c[i]| && c[i][j] != []
  {
    c[i := c[i][j := c[i][j][1..]]]
  }

  /**
   What arbiter a does with requester i's message.  `RelinquishNeverPopsEmpty` shows that the
   undefined case, popping an empty queue, does not arise.
  */
  ghost function ArbiterTakes(a: Arbiter, i: nat, m: Up, maxSize: nat): ArbiterStep
    requires ArbiterShape(a, |a.inquireReplied|) && i < |a.inquireReplied|
  {
    match m
    case Request(r) => TreatRequestStep(a, r, maxSize)
    case Relinquish =>
      if a.lock.Held? && a.queue != multiset{} then TreatRelinquishStep(a, i, maxSize)
      else ArbiterStep(a, Nothing)
    case Release => TreatReleaseStep(a, i)
  }

  /** Arbiter j has treated i's message with result r. */
  function Arbitrate(s: State, i: nat, j: nat, r: ArbiterStep): State
    requires i < |s.up| && j < |s.up[i]| && s.up[i][j] != []
    requires j < |s.clients| && j < |s.arbiters| && j < |s.down|
  {
    var m := s.up[i][j][0];
    var seen := if m.Request? then Max(s.clients[j].hgstSeq, m.r.timestamp) else s.clients[j].hgstSeq;
    s.(clients := s.clients[j := s.clients[j].(hgstSeq := seen)],
       arbiters := s.arbiters[j := r.arbiter],
       up := Take(s.up, i, j),
       down := Deliver(s.down, j, r.answer))
  }

  /** Requester i has treated arbiter j's message: its record is now c, and up what it has sent. */
  function Hear(s: State, i: nat, j: nat, c: Requester, up: seq<seq<seq<Up>>>): State
    requires i < |s.clients| && j < |s.down| && i < |s.down[j]| && s.down[j][i] != []
  {
    s.(clients := s.clients[i := c], up := up, down := Take(s.down, j, i))
  }

  ghost function Apply(cfg: Config, s: State, e: Event): State
    requires Shaped(cfg, s) && Enabled(cfg, s, e)
  {
    match e
    case Ask(i) =>
      var c := AskStep(s.clients[i], cfg.quorums[i]);
      s.(phase := s.phase[i := Waiting], clients := s.clients[i := c],
         up := PostAll(s.up, i, cfg.quorums[i], Request(Req(c.ourSeq, i))))
    case Enter(i) => s.(phase := s.phase[i := Inside])
    case Leave(i) =>
      s.(phase := s.phase[i := Outside],
         clients := s.clients[i := ReleaseStep(s.clients[i], cfg.quorums[i])],
         up := PostAll(s.up, i, cfg.quorums[i], Release))
    case AtArbiter(i, j) =>
      Arbitrate(s, i, j, ArbiterTakes(s.arbiters[j], i, s.up[i][j][0], cfg.maxSize))
    case AtClient(i, j) =>
      Hear(s, i, j, Recorded(s.clients[i], j, if s.down[j][i][0].Locked? then GotLocked else GotFailed), s.up)
    case Determine(i, j) => SetStage(s, i, j, Determined)
    case Look(i, j) =>
      if SomeFailed(s.clients[i], cfg.quorums[i]) then SetStage(s, i, j, Yielding)
      else SetStage(Hear(s, i, j, s.clients[i], s.up), i, j, Unread)
    case Yield(i, j) =>
      SetStage(Hear(s, i, j, Recorded(s.clients[i], j, GotFailed), PostUp(s.up, i, j, Relinquish)), i, j, Unread)
  }

  function SetStage(s: State, i: nat, j: nat, stage: Stage): State
    requires i < |s.stages| && j < |s.stages[i]|
  {
    s.(stages := s.stages[i := s.stages[i][j := stage]])
  }

  /** Channels are queues: a step takes at most the first message, and what it sends goes to the end. */
  lemma ChannelsAreQueues(cfg: Config, s: State, e: Event, i: nat, j: nat)
    requires Shaped(cfg, s) && Enabled(cfg, s, e) && i < |cfg.quorums| && j < |cfg.quorums|
    ensures var s' := Apply(cfg, s, e);
      && |s'.up| == |s'.down| == |cfg.quorums| && |s'.up[i]| == |s'.down[j]| == |cfg.quorums|
      && (if e == AtArbiter(i, j) then s'.up[i][j] == s.up[i][j][1..] else s.up[i][j] <= s'.up[i][j])
      && (if e.i == i && (e.AtClient? || e.Yield?) && e.j == j then s'.down[j][i] == s.down[j][i][1..]
          else if e == Look(i, j) then s'.down[j][i] in {s.down[j][i], s.down[j][i][1..]}
          else s.down[j][i] <= s'.down[j][i])
  {
  }

  // ---------------------------------------------------------------- a requester and an arbiter

  /** All that requester i and arbiter j know of each other, and the channels between them. */
  datatype Link = Link(
    id: nat, member: bool, phase: Phase, standing: Standing, stage: Stage, up: seq<Up>, down: seq<Down>,
    holds: bool, queued: bool, replied: bool)

  ghost function View(cfg: Config, s: State, i: nat, j: nat): Link
    requires Shaped(cfg, s) && i < |cfg.quorums| && j < |cfg.quorums|
  {
    Link(i, j in cfg.quorums[i], s.phase[i], StandingOf(s, i, j), s.stages[i][j], s.up[i][j], s.down[j][i],
         Holds(s.arbiters[j], i), Queued(s.arbiters[j], i), s.arbiters[j].inquireReplied[i])
  }

  /** What a step of the system means for one requester and one arbiter. */
  datatype Act =
    | LNone
    | LAsk | LEnter | LLeave                    // the requester's own steps
    | LLocked | LFailed                         // the requester takes LOCKED, FAILED
    | LDetermine | LDecide | LKeep | LYield     // the requester treats an INQUIRE: waits, decides or keeps, yields
    | LFirst | LRefused | LQueued               // the arbiter takes its REQUEST (three outcomes)
    | LSwappedOut | LReleased                   // the arbiter takes its RELINQUISH, its RELEASE
    | LGranted | LAsked                         // the arbiter grants its waiting request, asks it to yield

  function Requests(c: seq<Up>): nat {
    if c == [] then 0 else Ind(c[0].Request?) + Requests(c[1..])
  }

  function Relinquishes(c: seq<Up>): nat {
    if c == [] then 0 else Ind(c[0].Relinquish?) + Relinquishes(c[1..])
  }

  function Releases(c: seq<Up>): nat {
    if c == [] then 0 else Ind(c[0].Release?) + Releases(c[1..])
  }

  function Lockeds(c: seq<Down>): nat {
    if c == [] then 0 else Ind(c[0].Locked?) + Lockeds(c[1..])
  }

  /** What follows the first LOCKED. */
  function AfterLocked(c: seq<Down>): seq<Down> {
    if c == [] then [] else if c[0].Locked? then c[1..] else AfterLocked(c[1..])
  }

  lemma {:induction false} UpAppend(c: seq<Up>, x: Up)
    ensures Requests(c + [x]) == Requests(c) + Ind(x.Request?)
    ensures Relinquishes(c + [x]) == Relinquishes(c) + Ind(x.Relinquish?)
    ensures Releases(c + [x]) == Releases(c) + Ind(x.Release?)
  {
    if c != [] {
      assert (c + [x])[1..] == c[1..] + [x];
      UpAppend(c[1..], x);
    } else {
      assert c + [x] == [x];
    }
  }

  lemma {:induction false} DownAppend(c: seq<Down>, x: Down)
    ensures Lockeds(c + [x]) == Lockeds(c) + Ind(x.Locked?)
    ensures AfterLocked(c + [x]) == if Lockeds(c) > 0 then AfterLocked(c) + [x] else []
    ensures Lockeds(c) == 0 ==> AfterLocked(c) == []
  {
    if c != [] {
      assert (c + [x])[1..] == c[1..] + [x];
      DownAppend(c[1..], x);
    } else {
      assert c + [x] == [x];
    }
  }

  /** The grant: LOCKED in flight, LOCKED recorded, or the lock on its way back. */
  function Tokens(l: Link): nat {
    Ind(l.standing == GotLocked) + Lockeds(l.down) + Relinquishes(l.up) + Releases(l.up)
  }

  /** What was sent to the requester after its current grant. */
  function SinceGrant(l: Link): seq<Down> {
    if l.standing == GotLocked then l.down else AfterLocked(l.down)
  }

  predicate LinkInv(l: Link) {
    // one token while the requester holds the lock, none otherwise
    && Tokens(l) == Ind(l.holds)
    // one pending request while it waits or is inside: in flight, queued, or holding the lock
    && Requests(l.up) + Ind(l.queued) + Ind(l.holds) == Ind(l.member && l.phase != Outside) + Releases(l.up)
    && (forall k :: 0 <= k < |l.up| - 1 ==> !l.up[k].Request?)
    && (forall m <- l.up :: m.Request? ==> m.r.sender == l.id)
    // an INQUIRE about the current grant is the only message sent after it, and the arbiter waits for its answer
    && (SinceGrant(l) == [] || (SinceGrant(l) == [Inquire] && !l.replied))
    && (Relinquishes(l.up) > 0 ==> !l.replied)
    && (l.phase == Outside || !l.member ==> l.standing == NoReply)
    && (l.phase == Outside ==> forall m <- l.down :: m == Inquire)
    && (l.phase == Inside && l.member ==> l.standing == GotLocked)
    && (l.stage != Unread ==> l.down != [] && l.down[0] == Inquire)
    && (!l.member ==> l.up == [] && l.down == [] && !l.holds && !l.queued)
  }

  predicate Able(l: Link, act: Act) {
    match act
    case LNone => true
    case LAsk => l.phase == Outside
    case LEnter => l.phase == Waiting && (l.member ==> l.standing == GotLocked)
    case LLeave => l.phase == Inside
    case LLocked => l.down != [] && l.down[0] == Locked
    case LFailed => l.down != [] && l.down[0] == Failed
    case LDetermine => l.down != [] && l.down[0] == Inquire && l.stage == Unread
    case LDecide => l.stage == Determined
    case LKeep => l.stage == Determined
    case LYield => l.stage == Yielding && l.standing == GotLocked && l.phase == Waiting
    case LFirst => l.up != [] && l.up[0].Request? && !l.holds && !l.queued
    case LRefused => l.up != [] && l.up[0].Request? && !l.holds && !l.queued
    case LQueued => l.up != [] && l.up[0].Request? && !l.holds && !l.queued
    case LSwappedOut => l.up != [] && l.up[0].Relinquish? && l.holds && !l.queued
    case LReleased => l.up != [] && l.up[0].Release? && l.holds
    case LGranted => l.queued && !l.holds
    case LAsked => l.holds && l.replied
  }

  function Rest(c: seq<Down>): seq<Down> { if c == [] then [] else c[1..] }

  function Do(l: Link, act: Act, seqNo: nat): Link
    requires Able(l, act)
  {
    match act
    case LNone => l
    case LAsk =>
      l.(phase := Waiting, standing := if l.member then AwaitingReply else l.standing,
         up := if l.member then l.up + [Request(Req(seqNo, l.id))] else l.up)
    case LEnter => l.(phase := Inside)
    case LLeave =>
      l.(phase := Outside, standing := NoReply, up := if l.member then l.up + [Release] else l.up)
    case LLocked => l.(standing := GotLocked, down := l.down[1..])
    case LFailed => l.(standing := GotFailed, down := l.down[1..])
    case LDetermine => l.(stage := Determined)
    case LDecide => l.(stage := Yielding)
    case LKeep => l.(down := Rest(l.down), stage := Unread)
    case LYield => l.(standing := GotFailed, down := Rest(l.down), stage := Unread, up := l.up + [Relinquish])
    case LFirst => l.(up := l.up[1..], down := l.down + [Locked], holds := true)
    case LRefused => l.(up := l.up[1..], down := l.down + [Failed], queued := true)
    case LQueued => l.(up := l.up[1..], queued := true)
    case LSwappedOut => l.(up := l.up[1..], holds := false, queued := true, replied := true)
    case LReleased => l.(up := l.up[1..], holds := false, replied := true)
    case LGranted => l.(down := l.down + [Locked], holds := true, queued := false)
    case LAsked => l.(down := l.down + [Inquire], replied := false)
  }

  lemma LinkOwnStep(l: Link, act: Act, seqNo: nat)
    requires LinkInv(l) && Able(l, act) && (act.LAsk? || act.LEnter? || act.LLeave?)
    ensures LinkInv(Do(l, act, seqNo))
  {
    UpAppend(l.up, Request(Req(seqNo, l.id)));
    UpAppend(l.up, Release);
    DownAppend(l.down, Locked);
  }

  lemma LinkTakesStep(l: Link, act: Act, seqNo: nat)
    requires LinkInv(l) && Able(l, act) && (act.LLocked? || act.LFailed?)
    ensures LinkInv(Do(l, act, seqNo))
  {
    assert l.down[0] in l.down;
    assert l.down == [l.down[0]] + l.down[1..];
    DownAppend(l.down[1..], Locked);
  }

  lemma LinkInquiryStep(l: Link, act: Act, seqNo: nat)
    requires LinkInv(l) && Able(l, act) && (act.LDetermine? || act.LDecide? || act.LKeep?)
    ensures LinkInv(Do(l, act, seqNo))
  {
    assert l.down == [l.down[0]] + l.down[1..];
    assert forall m <- Rest(l.down) :: m in l.down;
    DownAppend(Rest(l.down), Locked);
  }

  lemma LinkYieldStep(l: Link, seqNo: nat)
    requires LinkInv(l) && Able(l, LYield)
    ensures LinkInv(Do(l, LYield, seqNo))
  {
    assert l.down == [Inquire] && Rest(l.down) == [];
    UpAppend(l.up, Relinquish);
  }

  /** The arbiter takes the requester's message. */
  lemma LinkTreatedStep(l: Link, act: Act, seqNo: nat)
    requires LinkInv(l) && Able(l, act)
    requires act.LFirst? || act.LRefused? || act.LQueued? || act.LSwappedOut? || act.LReleased?
    ensures LinkInv(Do(l, act, seqNo))
  {
    assert l.up == [l.up[0]] + l.up[1..];
    DownAppend(l.down, Locked);
    DownAppend(l.down, Failed);
  }

  /** The arbiter writes to the requester because of somebody else's message. */
  lemma LinkToldStep(l: Link, act: Act, seqNo: nat)
    requires LinkInv(l) && Able(l, act) && (act.LGranted? || act.LAsked?)
    ensures LinkInv(Do(l, act, seqNo))
  {
    DownAppend(l.down, Locked);
    DownAppend(l.down, Inquire);
  }

  lemma LinkStep(l: Link, act: Act, seqNo: nat)
    requires LinkInv(l) && Able(l, act)
    ensures LinkInv(Do(l, act, seqNo))
  {
    if act.LAsk? || act.LEnter? || act.LLeave? {
      LinkOwnStep(l, act, seqNo);
    } else if act.LLocked? || act.LFailed? {
      LinkTakesStep(l, act, seqNo);
    } else if act.LDetermine? || act.LDecide? || act.LKeep? {
      LinkInquiryStep(l, act, seqNo);
    } else if act.LYield? {
      LinkYieldStep(l, seqNo);
    } else if act.LGranted? || act.LAsked? {
      LinkToldStep(l, act, seqNo);
    } else if !act.LNone? {
      LinkTreatedStep(l, act, seqNo);
    }
  }

  // ---------------------------------------------------------------- steps of the system, link by link

  /** What arbiter a's treatment of i's message means for requester k. */
  ghost function ArbiterAct(a: Arbiter, i: nat, m: Up, answer: Answer, k: nat): Act {
    if k == i then
      match m
      case Request(_) =>
        if a.lock.Free? then LFirst else if answer == To(i, Failed) then LRefused else LQueued
      case Relinquish => LSwappedOut
      case Release => LReleased
    else if answer == To(k, Locked) then LGranted
    else if answer == To(k, Inquire) then LAsked
    else LNone
  }

  datatype Account = Account(holds: bool, queued: bool, replied: bool)

  ghost function AccountOf(a: Arbiter, k: nat): Account
    requires k < |a.inquireReplied|
  {
    Account(Holds(a, k), Queued(a, k), a.inquireReplied[k])
  }

  function Changed(x: Account, act: Act): Account {
    match act
    case LFirst => x.(holds := true)
    case LRefused => x.(queued := true)
    case LQueued => x.(queued := true)
    case LSwappedOut => Account(false, true, true)
    case LReleased => x.(holds := false, replied := true)
    case LGranted => x.(holds := true, queued := false)
    case LAsked => x.(replied := false)
    case _ => x
  }

  /** The message is one that i may send: a first request, or a lock that i gives back. */
  ghost predicate Expected(a: Arbiter, i: nat, m: Up)
    requires i < |a.inquireReplied|
  {
    match m
    case Request(r) => r.sender == i && !Holds(a, i) && !Queued(a, i)
    case Relinquish => Holds(a, i) && !a.inquireReplied[i]
    case Release => Holds(a, i)
  }

  /** What the treatment s of i's message does to requester k's account. */
  ghost predicate Accounted(a: Arbiter, i: nat, m: Up, s: ArbiterStep, k: nat)
    requires |a.inquireReplied| == |s.arbiter.inquireReplied| && k < |a.inquireReplied|
  {
    var act := ArbiterAct(a, i, m, s.answer, k);
    && AccountOf(s.arbiter, k) == Changed(AccountOf(a, k), act)
    && (act.LGranted? ==> Queued(a, k) && !Holds(a, k))
    && (act.LAsked? ==> Holds(a, k) && a.inquireReplied[k])
    && (act.LFirst? ==> s.answer == To(i, Locked))
    && (act.LQueued? || act.LSwappedOut? || act.LReleased? || act.LNone? ==> !(s.answer.To? && s.answer.dest == k))
  }

  lemma AccountRequest(a: Arbiter, i: nat, r: Req, n: nat, maxSize: nat, k: nat)
    requires ArbiterInv(a, n) && n <= maxSize + 1 && i < n && k < n && Expected(a, i, Request(r))
    ensures Accounted(a, i, Request(r), TreatRequestStep(a, r, maxSize), k)
  {
    RequestMeaning(a, r, n, maxSize);
    AccountTreated(a, i, r, n, TreatRequestStep(a, r, maxSize), k);
  }

  lemma AccountTreated(a: Arbiter, i: nat, r: Req, n: nat, s: ArbiterStep, k: nat)
    requires ArbiterShape(a, n) && i < n && k < n && Expected(a, i, Request(r)) && RequestTreated(a, r, s)
    ensures Accounted(a, i, Request(r), s, k)
  {
    PushedWaits(a.queue, r, k);
  }

  lemma HandOver(q: multiset<Req>, q': multiset<Req>, top: Req, k: int)
    requires q' + multiset{top} == q && forall x <- q' :: x.sender != top.sender
    ensures Waits(q', k) <==> Waits(q, k) && k != top.sender
    ensures Waits(q, top.sender)
  {
  }

  lemma AccountSwap(a: Arbiter, i: nat, s: ArbiterStep, k: nat)
    requires Holds(a, i) && s.arbiter.lock.Held? && s.answer == To(s.arbiter.lock.owner.sender, Locked)
    requires k < |a.inquireReplied| && i < |a.inquireReplied|
    requires s.arbiter.inquireReplied == a.inquireReplied[i := true]
    requires s.arbiter.queue + multiset{s.arbiter.lock.owner} == a.queue + multiset{a.lock.owner}
    requires s.arbiter.lock.owner.sender != i
    requires forall x <- s.arbiter.queue :: x.sender != s.arbiter.lock.owner.sender
    requires forall x <- a.queue :: x.sender != i
    ensures Accounted(a, i, Relinquish, s, k)
  {
    HandOver(a.queue + multiset{a.lock.owner}, s.arbiter.queue, s.arbiter.lock.owner, k);
    PushedWaits(a.queue, a.lock.owner, k);
  }

  lemma AccountRelinquish(a: Arbiter, i: nat, n: nat, maxSize: nat, k: nat)
    requires ArbiterInv(a, n) && n <= maxSize + 1 && i < n && k < n && Expected(a, i, Relinquish)
    ensures a.lock.Held? && a.queue != multiset{}
    ensures Accounted(a, i, Relinquish, TreatRelinquishStep(a, i, maxSize), k)
  {
    RelinquishMeaning(a, i, n, maxSize);
    var top := Least(a.queue);
    assert top in a.queue;
    AccountSwap(a, i, TreatRelinquishStep(a, i, maxSize), k);
  }

  lemma AccountHandOver(a: Arbiter, i: nat, s: ArbiterStep, k: nat)
    requires Holds(a, i) && s.arbiter.lock.Held? && s.answer == To(s.arbiter.lock.owner.sender, Locked)
    requires k < |a.inquireReplied| && i < |a.inquireReplied|
    requires s.arbiter.inquireReplied == a.inquireReplied[i := true]
    requires s.arbiter.queue + multiset{s.arbiter.lock.owner} == a.queue
    requires s.arbiter.lock.owner.sender != i
    requires forall x <- s.arbiter.queue :: x.sender != s.arbiter.lock.owner.sender
    ensures Accounted(a, i, Release, s, k)
  {
  }

  lemma AccountRelease(a: Arbiter, i: nat, n: nat, k: nat)
    requires ArbiterInv(a, n) && i < n && k < n && Expected(a, i, Release)
    ensures Accounted(a, i, Release, TreatReleaseStep(a, i), k)
  {
    ReleaseMeaning(a, i, n);
    if a.queue != multiset{} {
      assert Least(a.queue) in a.queue;
      AccountHandOver(a, i, TreatReleaseStep(a, i), k);
    }
  }

  lemma ArbiterTakesKeepsInv(a: Arbiter, i: nat, m: Up, n: nat, maxSize: nat)
    requires ArbiterInv(a, n) && n <= maxSize + 1 && i < n && Expected(a, i, m)
    ensures var s := ArbiterTakes(a, i, m, maxSize);
      ArbiterInv(s.arbiter, n) && (s.answer.To? ==> 0 <= s.answer.dest < n)
  {
    match m {
      case Request(r) => RequestMeaning(a, r, n, maxSize); RequestKeepsInv(a, r, n, maxSize);
      case Relinquish => RelinquishMeaning(a, i, n, maxSize);
      case Release => ReleaseMeaning(a, i, n);
    }
  }

  lemma ArbiterTakesAccount(a: Arbiter, i: nat, m: Up, n: nat, maxSize: nat, k: nat)
    requires ArbiterInv(a, n) && n <= maxSize + 1 && i < n && k < n && Expected(a, i, m)
    ensures ArbiterInv(ArbiterTakes(a, i, m, maxSize).arbiter, n)
    ensures Accounted(a, i, m, ArbiterTakes(a, i, m, maxSize), k)
  {
    ArbiterTakesKeepsInv(a, i, m, n, maxSize);
    match m {
      case Request(r) => AccountRequest(a, i, r, n, maxSize, k);
      case Relinquish => AccountRelinquish(a, i, n, maxSize, k);
      case Release => AccountRelease(a, i, n, k);
    }
  }

  // ---------------------------------------------------------------- the invariant of the system

  ghost predicate Linked(cfg: Config, s: State) {
    && Shaped(cfg, s)
    && forall i: nat, j: nat :: i < |cfg.quorums| && j < |cfg.quorums| ==> LinkInv(View(cfg, s, i, j))
  }

  ghost predicate Arbitrated(cfg: Config, s: State) {
    && |s.arbiters| == |cfg.quorums|
    && forall j :: 0 <= j < |cfg.quorums| ==> ArbiterInv(s.arbiters[j], |cfg.quorums|)
  }

  ghost predicate Inv(cfg: Config, s: State) {
    GoodConfig(cfg) && Linked(cfg, s) && Arbitrated(cfg, s)
  }

  lemma InitInv(cfg: Config)
    requires GoodConfig(cfg)
    ensures Inv(cfg, Init(cfg))
  {
  }

  lemma HeadOfUp(l: Link)
    requires LinkInv(l) && l.up != []
    ensures l.up[0].Request? ==> !l.holds && !l.queued && l.up[0].r.sender == l.id
    ensures l.up[0].Relinquish? ==> l.holds && !l.queued && !l.replied
    ensures l.up[0].Release? ==> l.holds
  {
    assert l.up[0] in l.up;
    assert l.up == [l.up[0]] + l.up[1..];
    if l.up[0].Request? {
      assert l.up[1..] == [];
      assert Requests(l.up[1..]) == Releases(l.up[1..]) == 0;
    }
  }

  /** What a requester sends is what its arbiter may expect. */
  lemma HeadExpected(cfg: Config, s: State, i: nat, j: nat)
    requires Linked(cfg, s) && i < |cfg.quorums| && j < |cfg.quorums| && s.up[i][j] != []
    ensures Expected(s.arbiters[j], i, s.up[i][j][0])
  {
    assert LinkInv(View(cfg, s, i, j));
    HeadOfUp(View(cfg, s, i, j));
  }

  ghost function ActOn(cfg: Config, s: State, e: Event, k: nat, j: nat): Act
    requires Shaped(cfg, s) && Enabled(cfg, s, e)
  {
    match e
    case Ask(i) => if k == i then LAsk else LNone
    case Enter(i) => if k == i then LEnter else LNone
    case Leave(i) => if k == i then LLeave else LNone
    case AtClient(i, jj) =>
      if k != i || j != jj then LNone else if s.down[j][i][0].Locked? then LLocked else LFailed
    case Determine(i, jj) => if k == i && j == jj then LDetermine else LNone
    case Look(i, jj) =>
      if k != i || j != jj then LNone
      else if SomeFailed(s.clients[i], cfg.quorums[i]) then LDecide else LKeep
    case Yield(i, jj) => if k == i && j == jj then LYield else LNone
    case AtArbiter(i, jj) =>
      if j != jj then LNone
      else
        var m := s.up[i][j][0];
        ArbiterAct(s.arbiters[j], i, m, ArbiterTakes(s.arbiters[j], i, m, cfg.maxSize).answer, k)
  }

  function NextSeq(s: State, k: nat): nat
    requires k < |s.clients|
  {
    s.clients[k].hgstSeq + 1
  }

  /** On the link of requester k and arbiter j the step is one of the acts, and that act is possible. */
  ghost predicate Projects(cfg: Config, s: State, e: Event, k: nat, j: nat)
    requires Shaped(cfg, s) && Enabled(cfg, s, e) && k < |cfg.quorums| && j < |cfg.quorums|
  {
    && Shaped(cfg, Apply(cfg, s, e))
    && Able(View(cfg, s, k, j), ActOn(cfg, s, e, k, j))
    && View(cfg, Apply(cfg, s, e), k, j) == Do(View(cfg, s, k, j), ActOn(cfg, s, e, k, j), NextSeq(s, k))
  }

  lemma ProjectAsk(cfg: Config, s: State, i: nat, k: nat, j: nat)
    requires Shaped(cfg, s) && Enabled(cfg, s, Ask(i)) && k < |cfg.quorums| && j < |cfg.quorums|
    ensures Projects(cfg, s, Ask(i), k, j)
  {
    var s' := Apply(cfg, s, Ask(i));
    assert s'.clients[i].replies.Keys == cfg.quorums[i];
    assert k == i && j in cfg.quorums[i] ==>
      s'.up[k][j] == s.up[k][j] + [Request(Req(NextSeq(s, i), i))] && StandingOf(s', k, j) == AwaitingReply;
    assert k != i ==> s'.up[k][j] == s.up[k][j];
  }

  lemma ProjectLeave(cfg: Config, s: State, i: nat, k: nat, j: nat)
    requires Shaped(cfg, s) && Enabled(cfg, s, Leave(i)) && k < |cfg.quorums| && j < |cfg.quorums|
    ensures Projects(cfg, s, Leave(i), k, j)
  {
    var s' := Apply(cfg, s, Leave(i));
    assert s'.clients[i].replies.Keys == cfg.quorums[i];
    assert k == i && j in cfg.quorums[i] ==>
      s'.up[k][j] == s.up[k][j] + [Release] && StandingOf(s', k, j) == NoReply;
    assert k != i ==> s'.up[k][j] == s.up[k][j];
  }

  lemma ProjectEnter(cfg: Config, s: State, i: nat, k: nat, j: nat)
    requires Shaped(cfg, s) && Enabled(cfg, s, Enter(i)) && k < |cfg.quorums| && j < |cfg.quorums|
    ensures Projects(cfg, s, Enter(i), k, j)
  {
  }

  /** Whoever has recorded a FAILED is waiting. */
  lemma FailedWaits(cfg: Config, s: State, i: nat)
    requires Linked(cfg, s) && i < |cfg.quorums| && SomeFailed(s.clients[i], cfg.quorums[i])
    requires forall j <- cfg.quorums[i] :: j < |cfg.quorums|
    ensures s.phase[i] == Waiting
  {
    var x :| x in cfg.quorums[i] && x in s.clients[i].replies && s.clients[i].replies[x] == GotFailed;
    assert LinkInv(View(cfg, s, i, x));
  }

  /** Requester e.i treats a message of arbiter e.j, or part of it. */
  predicate OnOneLink(e: Event) { e.AtClient? || e.Determine? || e.Look? || e.Yield? }

  /** Arbiter j is a member of the quorum, so its standing is one of those recorded. */
  lemma HearShaped(cfg: Config, s: State, e: Event)
    requires Shaped(cfg, s) && Enabled(cfg, s, e) && OnOneLink(e)
    requires e.j in cfg.quorums[e.i]
    ensures Shaped(cfg, Apply(cfg, s, e))
  {
    assert Apply(cfg, s, e).clients[e.i].replies.Keys == cfg.quorums[e.i];
  }

  lemma ProjectTaking(cfg: Config, s: State, i: nat, j: nat)
    requires Shaped(cfg, s) && Enabled(cfg, s, AtClient(i, j)) && Shaped(cfg, Apply(cfg, s, AtClient(i, j)))
    ensures Projects(cfg, s, AtClient(i, j), i, j)
  {
  }

  lemma ProjectDetermine(cfg: Config, s: State, i: nat, j: nat)
    requires Shaped(cfg, s) && Enabled(cfg, s, Determine(i, j)) && Shaped(cfg, Apply(cfg, s, Determine(i, j)))
    ensures Projects(cfg, s, Determine(i, j), i, j)
  {
  }

  lemma ProjectLook(cfg: Config, s: State, i: nat, j: nat)
    requires Shaped(cfg, s) && Enabled(cfg, s, Look(i, j)) && Shaped(cfg, Apply(cfg, s, Look(i, j)))
    ensures Projects(cfg, s, Look(i, j), i, j)
  {
  }

  lemma ProjectYield(cfg: Config, s: State, i: nat, j: nat)
    requires Shaped(cfg, s) && Enabled(cfg, s, Yield(i, j)) && Shaped(cfg, Apply(cfg, s, Yield(i, j)))
    requires Timely(cfg, s, Yield(i, j))
    ensures Projects(cfg, s, Yield(i, j), i, j)
  {
  }

  lemma ProjectClient(cfg: Config, s: State, e: Event)
    requires Shaped(cfg, s) && Enabled(cfg, s, e) && Timely(cfg, s, e) && OnOneLink(e)
    requires LinkInv(View(cfg, s, e.i, e.j))
    ensures Projects(cfg, s, e, e.i, e.j)
  {
    HearShaped(cfg, s, e);
    match e {
      case AtClient(i, j) => ProjectTaking(cfg, s, i, j);
      case Determine(i, j) => ProjectDetermine(cfg, s, i, j);
      case Look(i, j) => ProjectLook(cfg, s, i, j);
      case Yield(i, j) => ProjectYield(cfg, s, i, j);
    }
  }

  /** Treating arbiter jj's message changes nothing on requester i's other links, nor on other requesters'. */
  lemma HearElsewhere(cfg: Config, s: State, i: nat, jj: nat, c: Requester, up: seq<seq<seq<Up>>>, k: nat, j: nat)
    requires Shaped(cfg, s) && i < |cfg.quorums| && jj < |cfg.quorums| && s.down[jj][i] != []
    requires k < |cfg.quorums| && j < |cfg.quorums| && (k != i || j != jj)
    requires c.replies.Keys == cfg.quorums[i]
    requires forall x <- cfg.quorums[i] :: x != jj ==> c.replies[x] == s.clients[i].replies[x]
    requires up == s.up || up == PostUp(s.up, i, jj, Relinquish)
    ensures Shaped(cfg, Hear(s, i, jj, c, up))
    ensures View(cfg, Hear(s, i, jj, c, up), k, j) == View(cfg, s, k, j)
  {
    var s' := Hear(s, i, jj, c, up);
    assert s'.up[k][j] == s.up[k][j];
    assert s'.down[j][k] == s.down[j][k];
  }

  lemma StageElsewhere(cfg: Config, s: State, i: nat, jj: nat, stage: Stage, k: nat, j: nat)
    requires Shaped(cfg, s) && i < |cfg.quorums| && jj < |cfg.quorums|
    requires k < |cfg.quorums| && j < |cfg.quorums| && (k != i || j != jj)
    ensures Shaped(cfg, SetStage(s, i, jj, stage))
    ensures View(cfg, SetStage(s, i, jj, stage), k, j) == View(cfg, s, k, j)
  {
  }

  lemma ProjectClientElsewhere(cfg: Config, s: State, e: Event, k: nat, j: nat)
    requires Shaped(cfg, s) && Enabled(cfg, s, e) && OnOneLink(e)
    requires k < |cfg.quorums| && j < |cfg.quorums| && (k != e.i || j != e.j)
    requires e.j in cfg.quorums[e.i]
    ensures Projects(cfg, s, e, k, j)
  {
    var i, jj := e.i, e.j;
    HearShaped(cfg, s, e);
    match e {
      case AtClient(_, _) =>
        var s' := Apply(cfg, s, e);
        HearElsewhere(cfg, s, i, jj, s'.clients[i], s.up, k, j);
      case Determine(_, _) => StageElsewhere(cfg, s, i, jj, Determined, k, j);
      case Look(_, _) =>
        if SomeFailed(s.clients[i], cfg.quorums[i]) {
          StageElsewhere(cfg, s, i, jj, Yielding, k, j);
        } else {
          DoneElsewhere(cfg, s, i, jj, s.clients[i], s.up, k, j);
        }
      case Yield(_, _) =>
        DoneElsewhere(cfg, s, i, jj, Recorded(s.clients[i], jj, GotFailed), PostUp(s.up, i, jj, Relinquish), k, j);
    }
  }

  lemma DoneElsewhere(cfg: Config, s: State, i: nat, jj: nat, c: Requester, up: seq<seq<seq<Up>>>, k: nat, j: nat)
    requires Shaped(cfg, s) && i < |cfg.quorums| && jj < |cfg.quorums| && s.down[jj][i] != []
    requires k < |cfg.quorums| && j < |cfg.quorums| && (k != i || j != jj)
    requires c.replies.Keys == cfg.quorums[i]
    requires forall x <- cfg.quorums[i] :: x != jj ==> c.replies[x] == s.clients[i].replies[x]
    requires up == s.up || up == PostUp(s.up, i, jj, Relinquish)
    ensures var s' := SetStage(Hear(s, i, jj, c, up), i, jj, Unread);
      Shaped(cfg, s') && View(cfg, s', k, j) == View(cfg, s, k, j)
  {
    HearElsewhere(cfg, s, i, jj, c, up, k, j);
    StageElsewhere(cfg, Hear(s, i, jj, c, up), i, jj, Unread, k, j);
  }

  lemma ArbitrateShaped(cfg: Config, s: State, i: nat, j: nat, r: ArbiterStep)
    requires Shaped(cfg, s) && i < |cfg.quorums| && j < |cfg.quorums| && s.up[i][j] != []
    requires ArbiterShape(r.arbiter, |cfg.quorums|)
    ensures Shaped(cfg, Arbitrate(s, i, j, r))
  {
  }

  /** What requester k sees of arbiter j's treatment of i's message. */
  lemma ArbitrateView(cfg: Config, s: State, i: nat, j: nat, r: ArbiterStep, k: nat)
    requires Shaped(cfg, s) && i < |cfg.quorums| && j < |cfg.quorums| && s.up[i][j] != []
    requires ArbiterShape(r.arbiter, |cfg.quorums|) && k < |cfg.quorums|
    requires Accounted(s.arbiters[j], i, s.up[i][j][0], r, k)
    requires var act := ArbiterAct(s.arbiters[j], i, s.up[i][j][0], r.answer, k);
      Able(View(cfg, s, k, j), act)
    ensures Shaped(cfg, Arbitrate(s, i, j, r))
    ensures var act := ArbiterAct(s.arbiters[j], i, s.up[i][j][0], r.answer, k);
      View(cfg, Arbitrate(s, i, j, r), k, j) == Do(View(cfg, s, k, j), act, NextSeq(s, k))
  {
    ArbitrateShaped(cfg, s, i, j, r);
    var s' := Arbitrate(s, i, j, r);
    var act := ArbiterAct(s.arbiters[j], i, s.up[i][j][0], r.answer, k);
    var l' := Do(View(cfg, s, k, j), act, NextSeq(s, k));
    assert s'.up[k][j] == l'.up;
    assert s'.down[j][k] == l'.down;
    assert AccountOf(s'.arbiters[j], k) == Changed(AccountOf(s.arbiters[j], k), act);
  }

  lemma ArbitrateElsewhere(cfg: Config, s: State, i: nat, jj: nat, r: ArbiterStep, k: nat, j: nat)
    requires Shaped(cfg, s) && i < |cfg.quorums| && jj < |cfg.quorums| && s.up[i][jj] != []
    requires ArbiterShape(r.arbiter, |cfg.quorums|)
    requires k < |cfg.quorums| && j < |cfg.quorums| && j != jj
    ensures Shaped(cfg, Arbitrate(s, i, jj, r))
    ensures View(cfg, Arbitrate(s, i, jj, r), k, j) == View(cfg, s, k, j)
  {
  }

  lemma AbleToArbitrate(l: Link, m: Up, a: Arbiter, i: nat, r: ArbiterStep, k: nat)
    requires i < |a.inquireReplied| && k < |a.inquireReplied|
    requires |r.arbiter.inquireReplied| == |a.inquireReplied|
    requires Expected(a, i, m) && Accounted(a, i, m, r, k)
    requires k == i ==> l.up != [] && l.up[0] == m
    requires l.holds == Holds(a, k) && l.queued == Queued(a, k) && l.replied == a.inquireReplied[k]
    requires k == i && m.Relinquish? ==> !l.queued
    ensures Able(l, ArbiterAct(a, i, m, r.answer, k))
  {
  }

  lemma ProjectArbiter(cfg: Config, s: State, i: nat, jj: nat, r: ArbiterStep, k: nat, j: nat)
    requires Shaped(cfg, s) && Enabled(cfg, s, AtArbiter(i, jj)) && k < |cfg.quorums| && j < |cfg.quorums|
    requires r == ArbiterTakes(s.arbiters[jj], i, s.up[i][jj][0], cfg.maxSize)
    requires ArbiterShape(r.arbiter, |cfg.quorums|)
    requires Expected(s.arbiters[jj], i, s.up[i][jj][0]) && Accounted(s.arbiters[jj], i, s.up[i][jj][0], r, k)
    requires s.up[i][jj][0].Relinquish? ==> !Queued(s.arbiters[jj], i)
    ensures Projects(cfg, s, AtArbiter(i, jj), k, j)
  {
    assert Apply(cfg, s, AtArbiter(i, jj)) == Arbitrate(s, i, jj, r);
    if j == jj {
      AbleToArbitrate(View(cfg, s, k, j), s.up[i][j][0], s.arbiters[j], i, r, k);
      ArbitrateView(cfg, s, i, j, r, k);
    } else {
      ArbitrateElsewhere(cfg, s, i, jj, r, k, j);
    }
  }

  lemma Project(cfg: Config, s: State, e: Event, k: nat, j: nat)
    requires Inv(cfg, s) && Enabled(cfg, s, e) && Timely(cfg, s, e)
    requires k < |cfg.quorums| && j < |cfg.quorums|
    ensures Projects(cfg, s, e, k, j)
  {
    match e {
      case AtArbiter(i, jj) =>
        var a, m := s.arbiters[jj], s.up[i][jj][0];
        HeadExpected(cfg, s, i, jj);
        assert LinkInv(View(cfg, s, i, jj));
        HeadOfUp(View(cfg, s, i, jj));
        ArbiterTakesAccount(a, i, m, |cfg.quorums|, cfg.maxSize, k);
        ProjectArbiter(cfg, s, i, jj, ArbiterTakes(a, i, m, cfg.maxSize), k, j);
      case Ask(i) => ProjectAsk(cfg, s, i, k, j);
      case Enter(i) => ProjectEnter(cfg, s, i, k, j);
      case Leave(i) => ProjectLeave(cfg, s, i, k, j);
      case _ =>
        assert LinkInv(View(cfg, s, e.i, e.j));
        if k == e.i && j == e.j { ProjectClient(cfg, s, e); } else { ProjectClientElsewhere(cfg, s, e, k, j); }
    }
  }

  lemma StepArbitrated(cfg: Config, s: State, e: Event)
    requires Inv(cfg, s) && Enabled(cfg, s, e)
    ensures Arbitrated(cfg, Apply(cfg, s, e))
  {
    if e.AtArbiter? {
      HeadExpected(cfg, s, e.i, e.j);
      ArbiterTakesKeepsInv(s.arbiters[e.j], e.i, s.up[e.i][e.j][0], |cfg.quorums|, cfg.maxSize);
    }
  }

  lemma StepLink(cfg: Config, s: State, e: Event, k: nat, j: nat)
    requires Shaped(cfg, s) && Enabled(cfg, s, e) && k < |cfg.quorums| && j < |cfg.quorums|
    requires LinkInv(View(cfg, s, k, j)) && Projects(cfg, s, e, k, j)
    ensures LinkInv(View(cfg, Apply(cfg, s, e), k, j))
  {
    LinkStep(View(cfg, s, k, j), ActOn(cfg, s, e, k, j), NextSeq(s, k));
  }

  lemma StepInv(cfg: Config, s: State, e: Event)
    requires Inv(cfg, s) && Enabled(cfg, s, e) && Timely(cfg, s, e)
    ensures Inv(cfg, Apply(cfg, s, e))
  {
    StepArbitrated(cfg, s, e);
    forall k: nat, j: nat | k < |cfg.quorums| && j < |cfg.quorums|
      ensures Shaped(cfg, Apply(cfg, s, e)) && LinkInv(View(cfg, Apply(cfg, s, e), k, j))
    {
      Project(cfg, s, e, k, j);
      StepLink(cfg, s, e, k, j);
    }
    if |cfg.quorums| > 0 {
      Project(cfg, s, e, 0, 0);
    }
  }

  // ---------------------------------------------------------------- runs

  ghost predicate Run(cfg: Config, s: State, es: seq<Event>)
    decreases |es|
  {
    es == [] || (Shaped(cfg, s) && Enabled(cfg, s, es[0]) && Run(cfg, Apply(cfg, s, es[0]), es[1..]))
  }

  ghost function After(cfg: Config, s: State, es: seq<Event>): State
    requires Run(cfg, s, es)
    decreases |es|
  {
    if es == [] then s else After(cfg, Apply(cfg, s, es[0]), es[1..])
  }

  /** Every RELINQUISH is sent while the grant it gives back is still held by a waiting requester. */
  ghost predicate AlwaysTimely(cfg: Config, s: State, es: seq<Event>)
    requires Run(cfg, s, es)
    decreases |es|
  {
    es == [] || (Timely(cfg, s, es[0]) && AlwaysTimely(cfg, Apply(cfg, s, es[0]), es[1..]))
  }

  ghost predicate TimelyRun(cfg: Config, s: State, es: seq<Event>) {
    Run(cfg, s, es) && AlwaysTimely(cfg, s, es)
  }
}

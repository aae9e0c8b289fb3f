/**
 Quorums of which every two meet in one and the same arbiter c are safe without any assumption about
 time: only c ever says FAILED or INQUIRE, a FAILED of c is followed by its LOCKED, and so no INQUIRE
 is ever answered with a RELINQUISH.
*/
module MaekawaCalm {
  import opened MaekawaNode
  import opened MaekawaArbiter
  import opened MaekawaSystem
  import MaekawaSafety

  /** Arbiter c is the whole intersection of every two quorums. */
  ghost predicate MeetIn(cfg: Config, c: nat) {
    forall i, k :: 0 <= i < k < |cfg.quorums| ==> cfg.quorums[i] * cfg.quorums[k] == {c}
  }

  /** The last thing that the requester has heard, or will hear, from the arbiter is FAILED. */
  predicate LastFailed(l: Link) {
    if l.down == [] then l.standing == GotFailed else l.down[|l.down| - 1] == Failed
  }

  predicate LockedFollows(c: seq<Down>) {
    forall k :: 0 <= k < |c| - 1 && c[k] == Failed ==> c[k + 1] == Locked
  }

  /** On the links of arbiter c nothing but LOCKED follows a FAILED; on the others there is nothing but LOCKED. */
  predicate CalmLink(l: Link, shared: bool) {
    && l.stage != Yielding
    && if shared then
         && LockedFollows(l.down)
         && (l.standing == GotFailed && l.down != [] ==> l.down[0] == Locked)
         && (LastFailed(l) ==> l.queued && !l.holds)
       else
         l.standing != GotFailed && forall m <- l.down :: m == Locked
  }

  lemma AloneLinkStep(l: Link, act: Act, seqNo: nat)
    requires LinkInv(l) && Able(l, act) && CalmLink(l, false) && !act.LDecide? && !act.LYield?
    requires !act.LRefused? && !act.LQueued? && !act.LAsked?
    ensures CalmLink(Do(l, act, seqNo), false)
  {
    if l.down != [] {
      assert l.down[0] in l.down;
      assert forall m <- l.down[1..] :: m in l.down;
    }
  }

  lemma FollowsAppend(c: seq<Down>, m: Down)
    requires LockedFollows(c) && (c != [] && c[|c| - 1] == Failed ==> m == Locked)
    ensures LockedFollows(c + [m])
  {
  }

  /** The requester's own steps, and its taking of a message. */
  lemma SharedClientStep(l: Link, act: Act, seqNo: nat)
    requires LinkInv(l) && Able(l, act) && CalmLink(l, true)
    requires act.LNone? || act.LAsk? || act.LEnter? || act.LLeave? || act.LLocked? || act.LFailed?
      || act.LDetermine? || act.LKeep?
    ensures CalmLink(Do(l, act, seqNo), true)
  {
    if l.down != [] {
      assert l.down[|l.down| - 1] in l.down;
      assert LockedFollows(l.down[1..]);
    }
  }

  /** The arbiter's steps. */
  lemma SharedArbiterStep(l: Link, act: Act, seqNo: nat)
    requires LinkInv(l) && Able(l, act) && CalmLink(l, true)
    requires act.LFirst? || act.LRefused? || act.LQueued? || act.LSwappedOut? || act.LReleased?
      || act.LGranted? || act.LAsked?
    ensures CalmLink(Do(l, act, seqNo), true)
  {
    var l' := Do(l, act, seqNo);
    if l'.down != l.down {
      FollowsAppend(l.down, l'.down[|l.down|]);
    }
  }

  lemma CalmLinkStep(l: Link, act: Act, seqNo: nat, shared: bool)
    requires LinkInv(l) && Able(l, act) && CalmLink(l, shared) && !act.LDecide? && !act.LYield?
    requires !shared ==> !act.LRefused? && !act.LQueued? && !act.LAsked?
    ensures CalmLink(Do(l, act, seqNo), shared)
  {
    if !shared {
      AloneLinkStep(l, act, seqNo);
    } else if act.LFirst? || act.LRefused? || act.LQueued? || act.LSwappedOut? || act.LReleased?
      || act.LGranted? || act.LAsked? {
      SharedArbiterStep(l, act, seqNo);
    } else {
      SharedClientStep(l, act, seqNo);
    }
  }

  ghost predicate Calm(cfg: Config, s: State, c: nat) {
    Inv(cfg, s) &&
    forall i: nat, j: nat :: i < |cfg.quorums| && j < |cfg.quorums| ==> CalmLink(View(cfg, s, i, j), j == c)
  }

  lemma Apart(cfg: Config, c: nat, i: nat, k: nat, j: nat)
    requires MeetIn(cfg, c) && i < |cfg.quorums| && k < |cfg.quorums| && i != k
    requires j != c && j in cfg.quorums[i]
    ensures j !in cfg.quorums[k]
  {
    var low, high := if i < k then i else k, if i < k then k else i;
    assert cfg.quorums[low] * cfg.quorums[high] == {c};
    assert j !in cfg.quorums[low] * cfg.quorums[high];
  }

  /** Only one client ever has to do with an arbiter other than c. */
  lemma OneMember(cfg: Config, s: State, c: nat, i: nat, k: nat, j: nat)
    requires Inv(cfg, s) && MeetIn(cfg, c) && i < |cfg.quorums| && k < |cfg.quorums| && j < |cfg.quorums|
    requires j != c && i != k && j in cfg.quorums[i]
    ensures !Holds(s.arbiters[j], k)
  {
    Apart(cfg, c, i, k, j);
    assert LinkInv(View(cfg, s, k, j));
  }

  /** An arbiter other than c has nobody to refuse and nobody to ask. */
  lemma OthersAreFree(cfg: Config, s: State, c: nat, i: nat, j: nat)
    requires Inv(cfg, s) && MeetIn(cfg, c) && j != c
    requires Enabled(cfg, s, AtArbiter(i, j)) && s.up[i][j][0].Request?
    ensures s.arbiters[j].lock.Free?
  {
    assert LinkInv(View(cfg, s, i, j));
    HeadExpected(cfg, s, i, j);
    assert ArbiterInv(s.arbiters[j], |cfg.quorums|);
    if s.arbiters[j].lock.Held? {
      OneMember(cfg, s, c, i, s.arbiters[j].lock.owner.sender, j);
    }
  }

  /** Nobody decides to give a lock back. */
  lemma NobodyDecides(cfg: Config, s: State, c: nat, i: nat, j: nat)
    requires Calm(cfg, s, c) && Enabled(cfg, s, Look(i, j))
    ensures !SomeFailed(s.clients[i], cfg.quorums[i])
  {
    var l := View(cfg, s, i, j);
    assert CalmLink(l, j == c) && LinkInv(l);
    assert l.down[0] in l.down && l.down[0] == Inquire && j == c;
    forall x | x in cfg.quorums[i] ensures s.clients[i].replies[x] != GotFailed {
      assert CalmLink(View(cfg, s, i, x), x == c);
    }
  }

  lemma NobodyYields(cfg: Config, s: State, c: nat, i: nat, j: nat)
    requires Calm(cfg, s, c) && i < |cfg.quorums| && j < |cfg.quorums|
    ensures s.stages[i][j] != Yielding
  {
    assert CalmLink(View(cfg, s, i, j), j == c);
  }

  lemma CalmIsTimely(cfg: Config, s: State, c: nat, e: Event)
    requires Calm(cfg, s, c) && Enabled(cfg, s, e)
    ensures Timely(cfg, s, e) && !e.Yield?
  {
    if e.Yield? {
      NobodyYields(cfg, s, c, e.i, e.j);
    }
  }

  /** What an arbiter that is free does to the links of its requesters. */
  lemma FreeActs(a: Arbiter, i: nat, m: Up, maxSize: nat, k: nat)
    requires ArbiterShape(a, |a.inquireReplied|) && i < |a.inquireReplied|
    requires m.Request? ==> a.lock.Free?
    ensures var act := ArbiterAct(a, i, m, ArbiterTakes(a, i, m, maxSize).answer, k);
      !act.LRefused? && !act.LQueued? && !act.LAsked?
  {
  }

  ghost predicate CalmAct(act: Act, shared: bool) {
    !act.LDecide? && !act.LYield? && (shared || (!act.LRefused? && !act.LQueued? && !act.LAsked?))
  }

  lemma CalmArbiterActs(cfg: Config, s: State, c: nat, i: nat, jj: nat, k: nat, j: nat)
    requires Calm(cfg, s, c) && MeetIn(cfg, c) && Enabled(cfg, s, AtArbiter(i, jj))
    requires k < |cfg.quorums| && j < |cfg.quorums|
    ensures CalmAct(ActOn(cfg, s, AtArbiter(i, jj), k, j), j == c)
  {
    if j == jj && j != c {
      if s.up[i][j][0].Request? { OthersAreFree(cfg, s, c, i, j); }
      FreeActs(s.arbiters[j], i, s.up[i][j][0], cfg.maxSize, k);
    }
  }

  lemma CalmActs(cfg: Config, s: State, c: nat, e: Event, k: nat, j: nat)
    requires Calm(cfg, s, c) && MeetIn(cfg, c) && Enabled(cfg, s, e) && k < |cfg.quorums| && j < |cfg.quorums|
    ensures CalmAct(ActOn(cfg, s, e, k, j), j == c)
  {
    match e {
      case AtArbiter(i, jj) => CalmArbiterActs(cfg, s, c, i, jj, k, j);
      case Look(i, jj) => NobodyDecides(cfg, s, c, i, jj);
      case Yield(_, _) => CalmIsTimely(cfg, s, c, e);
      case _ =>
    }
  }

  lemma CalmStep(cfg: Config, s: State, c: nat, e: Event)
    requires Calm(cfg, s, c) && MeetIn(cfg, c) && Enabled(cfg, s, e)
    ensures Calm(cfg, Apply(cfg, s, e), c)
  {
    CalmIsTimely(cfg, s, c, e);
    StepInv(cfg, s, e);
    forall k: nat, j: nat | k < |cfg.quorums| && j < |cfg.quorums|
      ensures CalmLink(View(cfg, Apply(cfg, s, e), k, j), j == c)
    {
      Project(cfg, s, e, k, j);
      CalmActs(cfg, s, c, e, k, j);
      assert LinkInv(View(cfg, s, k, j));
      CalmLinkStep(View(cfg, s, k, j), ActOn(cfg, s, e, k, j), NextSeq(s, k), j == c);
    }
  }

  lemma {:induction false} CalmRun(cfg: Config, s: State, c: nat, es: seq<Event>)
    requires Calm(cfg, s, c) && MeetIn(cfg, c) && Run(cfg, s, es)
    ensures TimelyRun(cfg, s, es)
    decreases |es|
  {
    if es != [] {
      CalmIsTimely(cfg, s, c, es[0]);
      CalmStep(cfg, s, c, es[0]);
      CalmRun(cfg, Apply(cfg, s, es[0]), c, es[1..]);
    }
  }

  lemma InitIsCalm(cfg: Config, c: nat)
    requires GoodConfig(cfg)
    ensures Calm(cfg, Init(cfg), c)
  {
    InitInv(cfg);
  }

  /** Every run of such a configuration is timely, and so no two clients are ever inside together. */
  lemma MeetingInOneIsSafe(cfg: Config, c: nat, es: seq<Event>)
    requires GoodConfig(cfg) && MeetIn(cfg, c) && Run(cfg, Init(cfg), es)
    ensures TimelyRun(cfg, Init(cfg), es)
    ensures var t := After(cfg, Init(cfg), es);
      && |t.phase| == |cfg.quorums|
      && forall i, k :: 0 <= i < k < |t.phase| ==> !(t.phase[i] == Inside && t.phase[k] == Inside)
  {
    InitIsCalm(cfg, c);
    CalmRun(cfg, Init(cfg), c, es);
    forall i, k | 0 <= i < k < |cfg.quorums| ensures cfg.quorums[i] * cfg.quorums[k] != {} {
      assert c in cfg.quorums[i] * cfg.quorums[k];
    }
    MaekawaSafety.MutualExclusion(cfg, es);
  }
}

/**
 The lock of a file, whichever algorithm it runs: Ricart-Agrawala with the test and the entry as
 one step or as two, or Maekawa's quorums.  What its users rely on is proved for all of them.
*/
module FileLock {
  import RA = RicartAgrawalaSystem
  import Split = RicartAgrawalaSplitEnter
  import MK = MaekawaSystem
  import MaekawaSafety

  datatype Lock =
    | OneStep(ra: RA.State)
    | TwoStep(ss: Split.SplitState)
    | Quorums(cfg: MK.Config, mk: MK.State)

  datatype Event = OfOneStep(ra: RA.Event) | OfTwoStep(split: Split.SplitEvent) | OfQuorums(mk: MK.Event)

  /** The locks as they are at the start. */
  ghost predicate Initial(l: Lock) {
    match l
    case OneStep(s) => s == RA.Init(|s.nodes|)
    case TwoStep(ss) => ss == Split.SplitState(RA.Init(|ss.base.nodes|), {})
    case Quorums(cfg, s) => MK.GoodConfig(cfg) && MK.PairwiseIntersecting(cfg) && s == MK.Init(cfg)
  }

  function Clients(l: Lock): nat {
    match l
    case OneStep(s) => |s.nodes|
    case TwoStep(ss) => |ss.base.nodes|
    case Quorums(cfg, _) => |cfg.quorums|
  }

  predicate Inside(l: Lock, i: nat) {
    match l
    case OneStep(s) => i < |s.nodes| && s.nodes[i].using
    case TwoStep(ss) => i < |ss.base.nodes| && ss.base.nodes[i].using
    case Quorums(_, s) => i < |s.phase| && s.phase[i] == MK.Inside
  }

  /** The step is possible, and is none of those that spoil a test or come too late. */
  ghost predicate Allowed(l: Lock, e: Event) {
    match l
    case OneStep(s) => e.OfOneStep? && RA.Enabled(s, e.ra)
    case TwoStep(ss) => e.OfTwoStep? && Split.SplitEnabled(ss, e.split) && Split.Benign(ss, e.split)
    case Quorums(cfg, s) =>
      e.OfQuorums? && MK.Shaped(cfg, s) && MK.Enabled(cfg, s, e.mk) && MK.Timely(cfg, s, e.mk)
  }

  ghost function Step(l: Lock, e: Event): Lock
    requires Allowed(l, e)
  {
    match l
    case OneStep(s) => OneStep(RA.Apply(s, e.ra))
    case TwoStep(ss) => TwoStep(Split.SplitApply(ss, e.split))
    case Quorums(cfg, s) => Quorums(cfg, MK.Apply(cfg, s, e.mk))
  }

  /** The step by which client i leaves. */
  function Leaving(l: Lock, i: nat): Event {
    match l
    case OneStep(_) => OfOneStep(RA.Release(i))
    case TwoStep(_) => OfTwoStep(Split.Base(RA.Release(i)))
    case Quorums(_, _) => OfQuorums(MK.Leave(i))
  }

  predicate IsLeaving(e: Event) {
    match e
    case OfOneStep(b) => b.Release?
    case OfTwoStep(b) => b.Base? && b.e.Release?
    case OfQuorums(b) => b.Leave?
  }

  ghost predicate Inv(l: Lock) {
    match l
    case OneStep(s) => RA.Inv(s)
    case TwoStep(ss) => Split.CheckedCanEnter(ss)
    case Quorums(cfg, s) => MK.Inv(cfg, s) && MK.PairwiseIntersecting(cfg)
  }

  lemma InitialInv(l: Lock)
    requires Initial(l)
    ensures Inv(l) && forall i: nat :: !Inside(l, i)
  {
    match l {
      case OneStep(s) => RA.InitInv(|s.nodes|);
      case TwoStep(ss) => RA.InitInv(|ss.base.nodes|);
      case Quorums(cfg, _) => MK.InitInv(cfg);
    }
  }

  lemma StepInv(l: Lock, e: Event)
    requires Inv(l) && Allowed(l, e)
    ensures Inv(Step(l, e)) && Clients(Step(l, e)) == Clients(l)
  {
    match l {
      case OneStep(s) => RA.StepInv(s, e.ra);
      case TwoStep(ss) => Split.CheckedStep(ss, e.split);
      case Quorums(cfg, s) => MK.StepInv(cfg, s, e.mk);
    }
  }

  /** A client comes in by its own entering only, at once, and is put out by its own leaving only. */
  lemma InsideChanges(l: Lock, e: Event, k: nat)
    requires Inv(l) && Allowed(l, e)
    ensures Inside(Step(l, e), k) <==>
      || e == OfOneStep(RA.Enter(k)) || e == OfTwoStep(Split.LateEnter(k)) || e == OfQuorums(MK.Enter(k))
      || (Inside(l, k) && e != OfOneStep(RA.Release(k)) && e != OfTwoStep(Split.Base(RA.Release(k)))
          && e != OfQuorums(MK.Leave(k)))
  {
    match l {
      case OneStep(_) => match e.ra { case _ => }
      case TwoStep(_) => match e.split { case _ => }
      case Quorums(_, _) => match e.mk { case _ => }
    }
  }

  lemma LeavingIsLeaving(l: Lock, e: Event)
    requires Allowed(l, e)
    ensures IsLeaving(e) <==> exists i: nat :: e == Leaving(l, i)
  {
    match l {
      case OneStep(_) => assert e.ra.Release? ==> e == Leaving(l, e.ra.i);
      case TwoStep(_) => assert e.split.Base? && e.split.e.Release? ==> e == Leaving(l, e.split.e.i);
      case Quorums(_, _) => assert e.mk.Leave? ==> e == Leaving(l, e.mk.i);
    }
  }

  /** Two clients are never inside together. */
  lemma Excludes(l: Lock, i: nat, k: nat)
    requires Inv(l) && i != k && Inside(l, i)
    ensures !Inside(l, k)
  {
    match l {
      case OneStep(s) => if k < |s.nodes| { assert RA.PairInv(RA.View(s, i, k)); }
      case TwoStep(ss) => if k < |ss.base.nodes| { assert RA.PairInv(RA.View(ss.base, i, k)); }
      case Quorums(cfg, s) =>
        if k < |s.phase| {
          assert cfg.quorums[i] * cfg.quorums[k] == cfg.quorums[k] * cfg.quorums[i];
          assert cfg.quorums[if i < k then i else k] * cfg.quorums[if i < k then k else i] != {};
          MaekawaSafety.InsideExcludes(cfg, s, i, k);
        }
    }
  }
}

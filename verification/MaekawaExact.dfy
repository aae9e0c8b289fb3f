/**
 The configurations in which Maekawa's algorithm, as the program has it, keeps mutual exclusion in every
 run: those in which one and the same arbiter is the whole intersection of every two quorums.  In all
 others some run breaks it, with messages treated in order and no RELINQUISH for a grant not recorded.
*/
module MaekawaExact {
  import opened MessageQueue
  import opened MaekawaSystem
  import opened MaekawaOrder
  import opened MaekawaColumns
  import opened MaekawaRound
  import opened MaekawaLate
  import opened MaekawaCalm

  ghost predicate TwoInside(s: State) {
    exists i, k :: 0 <= i < |s.phase| && 0 <= k < |s.phase| && i != k && s.phase[i] == Inside && s.phase[k] == Inside
  }

  /** The program can get from the start to two clients inside. */
  ghost predicate Breaks(cfg: Config, es: seq<Event>) {
    && Run(cfg, Init(cfg), es) && InOrder(cfg, es) && AlwaysRecorded(cfg, Init(cfg), es)
    && TwoInside(After(cfg, Init(cfg), es))
  }

  lemma LeadsToBreak(cfg: Config, t: State) returns (es: seq<Event>)
    requires GoodConfig(cfg) && Leads(cfg, Init(cfg), t) && TwoInside(t)
    ensures Breaks(cfg, es)
  {
    es := LeadsInOrder(cfg, Init(cfg), t);
    var n := |cfg.quorums|;
    forall a: nat | a < n ensures RequestersFirst(cfg, Init(cfg))[a] == NoOrder(n)[a] {
      assert forall b: nat :: b < n ==> RequestersFirst(cfg, Init(cfg))[a][b] == [];
    }
    assert RequestersFirst(cfg, Init(cfg)) == NoOrder(n);
  }

  // ---------------------------------------------------------------- two quorums that do not meet

  lemma DisjointBreak(cfg: Config, i: nat, k: nat) returns (t: State)
    requires GoodConfig(cfg) && i < k < |cfg.quorums| && cfg.quorums[i] * cfg.quorums[k] == {}
    ensures Leads(cfg, Init(cfg), t) && TwoInside(t)
  {
    var s := Init(cfg);
    InitIsIdle(cfg);
    IdleIsSilent(cfg, s);
    var u, r := GoesIn(cfg, s, i);
    forall m | m in cfg.quorums[k] ensures ColumnOf(cfg, u, m) == IdleColumn(|cfg.quorums|) {
      assert m !in cfg.quorums[i] * cfg.quorums[k];
    }
    var r': Req;
    t, r' := GoesIn(cfg, u, k);
    Chain(cfg, s, u, t);
    assert t.phase[i] == Inside && t.phase[k] == Inside;
  }

  // ---------------------------------------------------------------- who plays which part

  /** From an idle state that the program can reach, with y's request the last. */
  lemma CastBreaks(cfg: Config, s: State, p: nat, e: nat, y: nat, x: nat, w: nat) returns (t: State)
    requires GoodConfig(cfg) && Leads(cfg, Init(cfg), s) && AllIdle(cfg, s)
    requires p < |cfg.quorums| && e < |cfg.quorums| && y < |cfg.quorums| && p != y && e != y
    requires x in cfg.quorums[e] && x in cfg.quorums[y] && w in cfg.quorums[p] && w in cfg.quorums[y] && w != x
    requires var r := RolesOf(cfg, s, p, e, y, x); Later(r.ry, r.rp) && Later(r.ry, r.re)
    ensures Leads(cfg, Init(cfg), t) && TwoInside(t)
  {
    t := LateRun(cfg, s, p, e, y, x);
    Chain(cfg, Init(cfg), s, t);
  }

  /** Two clients that share two arbiters. */
  lemma SharedPairBreaks(cfg: Config, a: nat, b: nat, x: nat, w: nat) returns (t: State)
    requires GoodConfig(cfg) && a < b < |cfg.quorums| && x != w
    requires x in cfg.quorums[a] * cfg.quorums[b] && w in cfg.quorums[a] * cfg.quorums[b]
    ensures Leads(cfg, Init(cfg), t) && TwoInside(t)
  {
    var s := Init(cfg);
    InitIsIdle(cfg);
    Stay(cfg, s);
    if a in cfg.quorums[a] && b !in cfg.quorums[a] {
      var one := Round(cfg, s, a);
      var two := Round(cfg, one, a);
      Chain(cfg, s, one, two);
      assert two.clients[a].hgstSeq == 2 && two.clients[b].hgstSeq == 0;
      t := CastBreaks(cfg, two, b, b, a, x, w);
    } else {
      t := CastBreaks(cfg, s, a, a, b, x, w);
    }
  }

  /** Three clients of which every two share an arbiter of their own; p is the first of them. */
  lemma TriangleBreaks(cfg: Config, p: nat, u: nat, v: nat, c: nat, d: nat, f: nat) returns (t: State)
    requires GoodConfig(cfg) && p < u < |cfg.quorums| && p < v < |cfg.quorums| && u != v && d != c && f != c
    requires c in cfg.quorums[u] && c in cfg.quorums[v]
    requires d in cfg.quorums[p] && d in cfg.quorums[u] && f in cfg.quorums[p] && f in cfg.quorums[v]
    ensures Leads(cfg, Init(cfg), t) && TwoInside(t)
  {
    var s := Init(cfg);
    InitIsIdle(cfg);
    Stay(cfg, s);
    if Later(Req(Seen(cfg, s, p, u) + 1, u), Req(Seen(cfg, s, p, v) + 1, v)) {
      t := CastBreaks(cfg, s, p, v, u, c, d);
    } else {
      t := CastBreaks(cfg, s, p, u, v, c, f);
    }
  }

  /** Clients i and k share arbiter m. */
  ghost predicate Share(cfg: Config, i: nat, k: nat, m: nat) {
    i < |cfg.quorums| && k < |cfg.quorums| && i != k && m in cfg.quorums[i] && m in cfg.quorums[k]
  }

  lemma PairBreaks(cfg: Config, i: nat, k: nat, x: nat, w: nat) returns (t: State)
    requires GoodConfig(cfg) && Share(cfg, i, k, x) && Share(cfg, i, k, w) && x != w
    ensures Leads(cfg, Init(cfg), t) && TwoInside(t)
  {
    t := SharedPairBreaks(cfg, if i < k then i else k, if i < k then k else i, x, w);
  }

  /** A client that meets another one in x and the same or a third one in w. */
  lemma ClientBreaks(cfg: Config, y: nat, e: nat, x: nat, p: nat, w: nat) returns (t: State)
    requires GoodConfig(cfg) && PairwiseIntersecting(cfg) && Share(cfg, e, y, x) && Share(cfg, p, y, w) && x != w
    ensures Leads(cfg, Init(cfg), t) && TwoInside(t)
  {
    if p == e {
      t := PairBreaks(cfg, e, y, x, w);
    } else {
      var v := Meets(cfg, p, e);
      if v == x {
        t := PairBreaks(cfg, p, y, x, w);
      } else if v == w {
        t := PairBreaks(cfg, e, y, x, w);
      } else if p < e && p < y {
        t := TriangleBreaks(cfg, p, e, y, x, v, w);
      } else if e < p && e < y {
        t := TriangleBreaks(cfg, e, p, y, w, v, x);
      } else {
        t := TriangleBreaks(cfg, y, p, e, v, w, x);
      }
    }
  }

  lemma Meets(cfg: Config, i: nat, k: nat) returns (m: nat)
    requires PairwiseIntersecting(cfg) && i < |cfg.quorums| && k < |cfg.quorums| && i != k
    ensures Share(cfg, i, k, m)
  {
    var low, high := if i < k then i else k, if i < k then k else i;
    assert cfg.quorums[low] * cfg.quorums[high] != {};
    m :| m in cfg.quorums[low] * cfg.quorums[high];
  }

  /** Two clients that meet elsewhere than in c. */
  lemma MeetsElsewhere(cfg: Config, c: nat) returns (i: nat, k: nat, d: nat)
    requires PairwiseIntersecting(cfg) && !MeetIn(cfg, c)
    ensures Share(cfg, i, k, d) && d != c
  {
    i, k :| i < k < |cfg.quorums| && cfg.quorums[i] * cfg.quorums[k] != {c};
    var both := cfg.quorums[i] * cfg.quorums[k];
    assert both != {};
    if c in both {
      d :| d in both && d != c;
    } else {
      d :| d in both;
    }
  }

  /** If no arbiter is the whole intersection of every two quorums, some run breaks mutual exclusion. */
  lemma SomeRunBreaks(cfg: Config) returns (t: State)
    requires GoodConfig(cfg) && PairwiseIntersecting(cfg) && |cfg.quorums| >= 2 && forall c :: !MeetIn(cfg, c)
    ensures Leads(cfg, Init(cfg), t) && TwoInside(t)
  {
    var c := Meets(cfg, 0, 1);
    var i, k, d := MeetsElsewhere(cfg, c);
    if i == 0 || i == 1 {
      t := ClientBreaks(cfg, i, k, d, 1 - i, c);
    } else if k == 0 || k == 1 {
      t := ClientBreaks(cfg, k, i, d, 1 - k, c);
    } else {
      var g := Meets(cfg, 0, i);
      if g != c {
        t := ClientBreaks(cfg, 0, i, g, 1, c);
      } else {
        t := ClientBreaks(cfg, i, 0, g, k, d);
      }
    }
  }

  // ---------------------------------------------------------------- the exact condition

  /** In every run, timely or not, two clients are never inside together. */
  ghost predicate AlwaysExclusive(cfg: Config) {
    forall es :: Run(cfg, Init(cfg), es) ==> !TwoInside(After(cfg, Init(cfg), es))
  }

  /** The same for the runs in which messages are treated in the program's order. */
  ghost predicate ExclusiveInOrder(cfg: Config) {
    forall es :: Run(cfg, Init(cfg), es) && InOrder(cfg, es) ==> !TwoInside(After(cfg, Init(cfg), es))
  }

  /** One arbiter is the whole intersection of every two quorums. */
  ghost predicate MeetInOne(cfg: Config) { exists c :: MeetIn(cfg, c) }

  lemma FewMeetInOne(cfg: Config)
    requires |cfg.quorums| < 2
    ensures MeetInOne(cfg)
  {
    assert MeetIn(cfg, 0);
  }

  lemma MeetInOneIsSafe(cfg: Config)
    requires GoodConfig(cfg) && MeetInOne(cfg)
    ensures AlwaysExclusive(cfg)
  {
    var c :| MeetIn(cfg, c);
    forall es | Run(cfg, Init(cfg), es) ensures !TwoInside(After(cfg, Init(cfg), es)) {
      MeetingInOneIsSafe(cfg, c, es);
    }
  }

  /**
   Otherwise some run of the program breaks it, in which every RELINQUISH is sent while the grant that it gives
   back is still recorded: that alone does not help when the client has entered.
  */
  lemma LateRelinquishBreaksMutualExclusion(cfg: Config) returns (es: seq<Event>)
    requires GoodConfig(cfg) && !MeetInOne(cfg)
    ensures Breaks(cfg, es)
  {
    if |cfg.quorums| < 2 { FewMeetInOne(cfg); }
    var t: State;
    if i, k :| 0 <= i < k < |cfg.quorums| && cfg.quorums[i] * cfg.quorums[k] == {} {
      t := DisjointBreak(cfg, i, k);
    } else {
      t := SomeRunBreaks(cfg);
    }
    es := LeadsToBreak(cfg, t);
  }

  /** Mutual exclusion holds in every run exactly when one arbiter is all that any two quorums have in common. */
  lemma ExclusiveIffMeetInOne(cfg: Config)
    requires GoodConfig(cfg)
    ensures AlwaysExclusive(cfg) <==> MeetInOne(cfg)
    ensures ExclusiveInOrder(cfg) <==> MeetInOne(cfg)
  {
    if MeetInOne(cfg) {
      MeetInOneIsSafe(cfg);
    } else {
      var es := LateRelinquishBreaksMutualExclusion(cfg);
      assert Run(cfg, Init(cfg), es) && InOrder(cfg, es) && TwoInside(After(cfg, Init(cfg), es));
    }
  }
}

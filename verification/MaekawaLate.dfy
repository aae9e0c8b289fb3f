/**
 A run in which two clients end up inside, for every choice of clients p, e and y and of an arbiter x of
 e and y, as long as p and y share another arbiter and y's request comes last.  Client y decides to give
 x's lock back while FAILED is recorded; then LOCKED arrives, y enters, and gives the lock back all the
 same.  Every RELINQUISH is sent while the grant is still recorded, and messages are treated in order.
*/
module MaekawaLate {
  import opened MessageQueue
  import opened MaekawaNode
  import opened MaekawaSystem
  import opened MaekawaOrder
  import opened MaekawaColumns
  import opened MaekawaRound
  import opened MaekawaLateColumns

  function PartOf(cfg: Config, r: Roles, m: nat): Part
    requires Cast(|cfg.quorums|, r)
  {
    Part(m in cfg.quorums[r.p] && m != r.x, m in cfg.quorums[r.e], m in cfg.quorums[r.y])
  }

  ghost predicate GoodCast(cfg: Config, r: Roles) {
    && GoodConfig(cfg) && Cast(|cfg.quorums|, r) && cfg.maxSize > 0
    && r.x in cfg.quorums[r.e] && r.x in cfg.quorums[r.y]
    && exists w :: w in cfg.quorums[r.p] && w in cfg.quorums[r.y] && w != r.x
  }

  /** The column of an arbiter other than x at the ends of the sweeps below. */
  function ColumnAt(n: nat, r: Roles, q: Part, level: nat): Column
    requires Cast(n, r)
  {
    if level <= 1 then Column1(n, r, q)
    else if level <= 4 then Column4(n, r, q)
    else if level == 5 then Column5(n, r, q)
    else if level <= 8 || !(q.e && q.y) then Column6(n, r, q, Unread)
    else Column9(n, r)
  }

  /** Arbiter x's column is col; of the others those in todo are at level a, the rest at level b. */
  ghost predicate Around(cfg: Config, s: State, r: Roles, todo: set<nat>, a: nat, b: nat, col: Column) {
    && GoodCast(cfg, r) && Shaped(cfg, s) && ColumnOf(cfg, s, r.x) == col
    && forall m: nat :: m < |cfg.quorums| && m != r.x ==>
         ColumnOf(cfg, s, m) == ColumnAt(|cfg.quorums|, r, PartOf(cfg, r, m), if m in todo then a else b)
  }

  /** What a treated message does to the phase, and to one column. */
  lemma Treats(cfg: Config, s: State, i: nat, m: nat, col: Column) returns (t: State)
    requires Shaped(cfg, s) && i < |cfg.quorums| && m < |cfg.quorums|
    requires Turns(ColumnOf(cfg, s, m), i, cfg.maxSize, col)
    ensures Leads(cfg, s, t) && OnlyColumn(cfg, s, t, m, col)
  {
    CellsOf(cfg, s, m);
    TakesColumn(cfg, s, i, m);
    t := Apply(cfg, s, AtArbiter(i, m));
    One(cfg, s, AtArbiter(i, m));
  }

  lemma Hears(cfg: Config, s: State, i: nat, m: nat, col: Column) returns (t: State)
    requires Shaped(cfg, s) && i < |cfg.quorums| && m < |cfg.quorums| && m in cfg.quorums[i]
    requires Reads(ColumnOf(cfg, s, m), i, col) && s.up[m][i] == []
    ensures Leads(cfg, s, t) && OnlyColumn(cfg, s, t, m, col)
  {
    CellsOf(cfg, s, m);
    HeardColumn(cfg, s, i, m);
    t := Apply(cfg, s, AtClient(i, m));
    One(cfg, s, AtClient(i, m));
  }

  lemma OnlyTwice(cfg: Config, s: State, t: State, u: State, m: nat, c: Column, d: Column)
    requires OnlyColumn(cfg, s, t, m, c) && OnlyColumn(cfg, t, u, m, d)
    ensures OnlyColumn(cfg, s, u, m, d)
  {
  }

  // ---------------------------------------------------------------- the arbiters settle

  ghost predicate Settling(cfg: Config, s: State, r: Roles, todo: set<nat>) {
    && GoodCast(cfg, r) && Shaped(cfg, s)
    && forall m: nat :: m < |cfg.quorums| ==>
         ColumnOf(cfg, s, m) == ColumnAt(|cfg.quorums|, r, PartOf(cfg, r, m), if m in todo then 1 else 4)
  }

  lemma SettlesY(cfg: Config, s: State, r: Roles, m: nat) returns (t: State)
    requires GoodCast(cfg, r) && Shaped(cfg, s) && m < |cfg.quorums|
    requires ColumnOf(cfg, s, m) == Column1(|cfg.quorums|, r, PartOf(cfg, r, m))
    ensures Leads(cfg, s, t) && OnlyColumn(cfg, s, t, m, Column2(|cfg.quorums|, r, PartOf(cfg, r, m)))
  {
    TakesY(|cfg.quorums|, r, PartOf(cfg, r, m), cfg.maxSize);
    if PartOf(cfg, r, m).y {
      t := Treats(cfg, s, r.y, m, Column2(|cfg.quorums|, r, PartOf(cfg, r, m)));
    } else {
      t := s;
      Stay(cfg, s);
    }
  }

  lemma SettlesP(cfg: Config, s: State, r: Roles, m: nat) returns (t: State)
    requires GoodCast(cfg, r) && Shaped(cfg, s) && m < |cfg.quorums|
    requires ColumnOf(cfg, s, m) == Column2(|cfg.quorums|, r, PartOf(cfg, r, m))
    ensures Leads(cfg, s, t) && OnlyColumn(cfg, s, t, m, Column3(|cfg.quorums|, r, PartOf(cfg, r, m)))
  {
    TakesP(|cfg.quorums|, r, PartOf(cfg, r, m), cfg.maxSize);
    if PartOf(cfg, r, m).held {
      t := Treats(cfg, s, r.p, m, Column3(|cfg.quorums|, r, PartOf(cfg, r, m)));
    } else {
      t := s;
      Stay(cfg, s);
    }
  }

  lemma SettlesE(cfg: Config, s: State, r: Roles, m: nat) returns (t: State)
    requires GoodCast(cfg, r) && Shaped(cfg, s) && m < |cfg.quorums|
    requires ColumnOf(cfg, s, m) == Column3(|cfg.quorums|, r, PartOf(cfg, r, m))
    ensures Leads(cfg, s, t) && OnlyColumn(cfg, s, t, m, Column4(|cfg.quorums|, r, PartOf(cfg, r, m)))
  {
    TakesE(|cfg.quorums|, r, PartOf(cfg, r, m), cfg.maxSize);
    if PartOf(cfg, r, m).e {
      t := Treats(cfg, s, r.e, m, Column4(|cfg.quorums|, r, PartOf(cfg, r, m)));
    } else {
      t := s;
      Stay(cfg, s);
    }
  }

  /** Arbiter m treats y's REQUEST, p's RELEASE and e's REQUEST. */
  lemma Settles(cfg: Config, s: State, r: Roles, m: nat) returns (t: State)
    requires GoodCast(cfg, r) && Shaped(cfg, s) && m < |cfg.quorums|
    requires ColumnOf(cfg, s, m) == Column1(|cfg.quorums|, r, PartOf(cfg, r, m))
    ensures Leads(cfg, s, t) && OnlyColumn(cfg, s, t, m, Column4(|cfg.quorums|, r, PartOf(cfg, r, m)))
  {
    var u := SettlesY(cfg, s, r, m);
    var v := SettlesP(cfg, u, r, m);
    t := SettlesE(cfg, v, r, m);
    Chain(cfg, s, u, v);
    Chain(cfg, s, v, t);
  }

  lemma OneMoreSettles(cfg: Config, s: State, r: Roles, m: nat, todo: set<nat>) returns (t: State)
    requires Settling(cfg, s, r, todo) && m in todo && m < |cfg.quorums|
    ensures Leads(cfg, s, t) && Settling(cfg, t, r, todo - {m}) && t.phase == s.phase
  {
    t := Settles(cfg, s, r, m);
  }

  lemma {:induction false} AllSettle(cfg: Config, s: State, r: Roles, todo: set<nat>) returns (t: State)
    requires Settling(cfg, s, r, todo) && forall m <- todo :: m < |cfg.quorums|
    ensures Leads(cfg, s, t) && Settling(cfg, t, r, {}) && t.phase == s.phase
    decreases todo
  {
    if todo == {} {
      t := s;
      Stay(cfg, s);
    } else {
      var m :| m in todo;
      var u := OneMoreSettles(cfg, s, r, m, todo);
      t := AllSettle(cfg, u, r, todo - {m});
      Chain(cfg, s, u, t);
    }
  }

  // ---------------------------------------------------------------- the clients read

  /** No requester's message is under way, and no arbiter's but to y. */
  ghost predicate Quiet(r: Roles, col: Column) {
    forall k :: 0 <= k < |col.cells| ==> col.cells[k].up == [] && (k == r.y || col.cells[k].down == [])
  }

  ghost predicate NoUps(col: Column) { forall k :: 0 <= k < |col.cells| ==> col.cells[k].up == [] }

  lemma FourIsQuiet(n: nat, r: Roles, q: Part)
    requires Cast(n, r)
    ensures NoUps(Column4(n, r, q))
  {
  }

  lemma FiveIsQuiet(n: nat, r: Roles, q: Part)
    requires Cast(n, r)
    ensures Quiet(r, Column5(n, r, q))
  {
  }

  lemma SixIsQuiet(n: nat, r: Roles, q: Part, stage: Stage)
    requires Cast(n, r)
    ensures Quiet(r, Column6(n, r, q, stage))
  {
  }

  lemma NineIsQuiet(n: nat, r: Roles)
    requires Cast(n, r)
    ensures Quiet(r, Column9(n, r))
  {
  }

  lemma LevelsAreQuiet(n: nat, r: Roles, q: Part, level: nat)
    requires Cast(n, r) && level >= 4
    ensures NoUps(ColumnAt(n, r, q, level))
    ensures level >= 5 ==> Quiet(r, ColumnAt(n, r, q, level))
  {
    FourIsQuiet(n, r, q);
    FiveIsQuiet(n, r, q);
    SixIsQuiet(n, r, q, Unread);
    NineIsQuiet(n, r);
  }

  lemma NothingAhead(cfg: Config, s: State, m: nat, i: nat)
    requires Shaped(cfg, s) && m < |cfg.quorums| && i < |cfg.quorums| && NoUps(ColumnOf(cfg, s, i))
    ensures s.up[m][i] == []
  {
    CellsOf(cfg, s, i);
  }

  ghost predicate Reading(cfg: Config, s: State, r: Roles, todo: set<nat>) {
    && GoodCast(cfg, r) && Shaped(cfg, s)
    && forall m: nat :: m < |cfg.quorums| ==>
         ColumnOf(cfg, s, m) == ColumnAt(|cfg.quorums|, r, PartOf(cfg, r, m), if m in todo then 4 else 5)
  }

  lemma ReadingIsQuiet(cfg: Config, s: State, r: Roles, todo: set<nat>, m: nat)
    requires Reading(cfg, s, r, todo) && m < |cfg.quorums|
    ensures NoUps(ColumnOf(cfg, s, m))
  {
    LevelsAreQuiet(|cfg.quorums|, r, PartOf(cfg, r, m), if m in todo then 4 else 5);
  }

  lemma OneMoreReads(cfg: Config, s: State, r: Roles, m: nat, todo: set<nat>) returns (t: State)
    requires Reading(cfg, s, r, todo) && m in todo && m < |cfg.quorums|
    ensures Leads(cfg, s, t) && Reading(cfg, t, r, todo - {m}) && t.phase == s.phase
  {
    var q, n := PartOf(cfg, r, m), |cfg.quorums|;
    ReadsOnce(n, r, q);
    ReadingIsQuiet(cfg, s, r, todo, r.y);
    ReadingIsQuiet(cfg, s, r, todo, r.e);
    NothingAhead(cfg, s, m, r.y);
    NothingAhead(cfg, s, m, r.e);
    if q.y {
      t := Hears(cfg, s, r.y, m, Column5(n, r, q));
    } else if q.e {
      t := Hears(cfg, s, r.e, m, Column5(n, r, q));
    } else {
      t := s;
      Stay(cfg, s);
    }
  }

  lemma {:induction false} AllRead(cfg: Config, s: State, r: Roles, todo: set<nat>) returns (t: State)
    requires Reading(cfg, s, r, todo) && forall m <- todo :: m < |cfg.quorums|
    ensures Leads(cfg, s, t) && Reading(cfg, t, r, {}) && t.phase == s.phase
    decreases todo
  {
    if todo == {} {
      t := s;
      Stay(cfg, s);
    } else {
      var m :| m in todo;
      var u := OneMoreReads(cfg, s, r, m, todo);
      t := AllRead(cfg, u, r, todo - {m});
      Chain(cfg, s, u, t);
    }
  }

  // ---------------------------------------------------------------- y decides, enters, and is late

  lemma StandsFailed(cfg: Config, s: State, i: nat, m: nat)
    requires Shaped(cfg, s) && i < |cfg.quorums| && m < |cfg.quorums| && m in cfg.quorums[i]
    requires ColumnOf(cfg, s, m).cells[i].standing == GotFailed
    ensures SomeFailed(s.clients[i], cfg.quorums[i])
  {
    assert ColumnOf(cfg, s, m).cells[i] == CellOf(cfg, s, i, m);
  }

  /** y determines the result of arbiter m's INQUIRE and decides to give the lock back. */
  lemma DecidesToYield(cfg: Config, s: State, r: Roles, m: nat) returns (t: State)
    requires GoodCast(cfg, r) && Shaped(cfg, s) && m < |cfg.quorums| && PartOf(cfg, r, m).y && PartOf(cfg, r, m).e
    requires ColumnOf(cfg, s, m) == Column6(|cfg.quorums|, r, PartOf(cfg, r, m), Unread)
    requires NoUps(ColumnOf(cfg, s, r.y)) && SomeFailed(s.clients[r.y], cfg.quorums[r.y])
    ensures Leads(cfg, s, t)
    ensures OnlyColumn(cfg, s, t, m, Column6(|cfg.quorums|, r, PartOf(cfg, r, m), Yielding))
  {
    var n, q := |cfg.quorums|, PartOf(cfg, r, m);
    CellsOf(cfg, s, m);
    assert ColumnOf(cfg, s, m).cells[r.y] == CellOf(cfg, s, r.y, m);
    NothingAhead(cfg, s, m, r.y);
    StagedColumn(cfg, s, Determine(r.y, m));
    Decides(n, r, q, Unread, Determined);
    var u := Apply(cfg, s, Determine(r.y, m));
    One(cfg, s, Determine(r.y, m));
    t := LooksToYield(cfg, u, r, m);
    Chain(cfg, s, u, t);
  }

  lemma LooksToYield(cfg: Config, s: State, r: Roles, m: nat) returns (t: State)
    requires GoodCast(cfg, r) && Shaped(cfg, s) && m < |cfg.quorums| && PartOf(cfg, r, m).y && PartOf(cfg, r, m).e
    requires ColumnOf(cfg, s, m) == Column6(|cfg.quorums|, r, PartOf(cfg, r, m), Determined)
    requires s.up[m][r.y] == [] && SomeFailed(s.clients[r.y], cfg.quorums[r.y])
    ensures Leads(cfg, s, t)
    ensures OnlyColumn(cfg, s, t, m, Column6(|cfg.quorums|, r, PartOf(cfg, r, m), Yielding))
  {
    CellsOf(cfg, s, m);
    assert ColumnOf(cfg, s, m).cells[r.y] == CellOf(cfg, s, r.y, m);
    StagedColumn(cfg, s, Look(r.y, m));
    Decides(|cfg.quorums|, r, PartOf(cfg, r, m), Determined, Yielding);
    t := Apply(cfg, s, Look(r.y, m));
    One(cfg, s, Look(r.y, m));
  }

  lemma Yields(cfg: Config, s: State, r: Roles, m: nat) returns (t: State)
    requires GoodCast(cfg, r) && Shaped(cfg, s) && m < |cfg.quorums| && PartOf(cfg, r, m).y && PartOf(cfg, r, m).e
    requires ColumnOf(cfg, s, m) == Column6(|cfg.quorums|, r, PartOf(cfg, r, m), Yielding)
    requires Quiet(r, ColumnOf(cfg, s, r.y))
    ensures Leads(cfg, s, t) && OnlyColumn(cfg, s, t, m, Column7(|cfg.quorums|, r))
  {
    CellsOf(cfg, s, m);
    CellsOf(cfg, s, r.y);
    assert ColumnOf(cfg, s, m).cells[r.y] == CellOf(cfg, s, r.y, m);
    YieldedColumn(cfg, s, r.y, m);
    GivesBack(|cfg.quorums|, r, PartOf(cfg, r, m));
    t := Apply(cfg, s, Yield(r.y, m));
    One(cfg, s, Yield(r.y, m));
  }

  lemma EHearsLast(cfg: Config, s: State, r: Roles, m: nat) returns (t: State)
    requires GoodCast(cfg, r) && Shaped(cfg, s) && m < |cfg.quorums| && PartOf(cfg, r, m).e
    requires ColumnOf(cfg, s, m) == Column8(|cfg.quorums|, r)
    requires r.e != m ==> NoUps(ColumnOf(cfg, s, r.e))
    ensures Leads(cfg, s, t) && OnlyColumn(cfg, s, t, m, Column9(|cfg.quorums|, r))
  {
    ReadsLast(|cfg.quorums|, r);
    NothingAhead(cfg, s, m, r.e);
    t := Hears(cfg, s, r.e, m, Column9(|cfg.quorums|, r));
  }

  lemma EGets(cfg: Config, s: State, r: Roles, m: nat) returns (t: State)
    requires GoodCast(cfg, r) && Shaped(cfg, s) && m < |cfg.quorums| && PartOf(cfg, r, m).e
    requires ColumnOf(cfg, s, m) == Column7(|cfg.quorums|, r)
    requires r.e != m ==> NoUps(ColumnOf(cfg, s, r.e))
    ensures Leads(cfg, s, t) && OnlyColumn(cfg, s, t, m, Column9(|cfg.quorums|, r))
  {
    TakesBack(|cfg.quorums|, r, cfg.maxSize);
    var u := Treats(cfg, s, r.y, m, Column8(|cfg.quorums|, r));
    t := EHearsLast(cfg, u, r, m);
    Chain(cfg, s, u, t);
  }

  /** y gives arbiter m's lock back, and e gets it. */
  lemma HandsOn(cfg: Config, s: State, r: Roles, m: nat) returns (t: State)
    requires GoodCast(cfg, r) && Shaped(cfg, s) && m < |cfg.quorums| && PartOf(cfg, r, m).y && PartOf(cfg, r, m).e
    requires ColumnOf(cfg, s, m) == Column6(|cfg.quorums|, r, PartOf(cfg, r, m), Yielding)
    requires Quiet(r, ColumnOf(cfg, s, r.y)) && (r.e != m ==> NoUps(ColumnOf(cfg, s, r.e)))
    ensures Leads(cfg, s, t) && OnlyColumn(cfg, s, t, m, Column9(|cfg.quorums|, r))
  {
    var u := Yields(cfg, s, r, m);
    t := EGets(cfg, u, r, m);
    Chain(cfg, s, u, t);
  }

  lemma DecidesAndHandsOn(cfg: Config, s: State, r: Roles, m: nat) returns (t: State)
    requires GoodCast(cfg, r) && Shaped(cfg, s) && m < |cfg.quorums| && PartOf(cfg, r, m).y && PartOf(cfg, r, m).e
    requires ColumnOf(cfg, s, m) == Column6(|cfg.quorums|, r, PartOf(cfg, r, m), Unread)
    requires Quiet(r, ColumnOf(cfg, s, r.y)) && NoUps(ColumnOf(cfg, s, r.e))
    requires SomeFailed(s.clients[r.y], cfg.quorums[r.y])
    ensures Leads(cfg, s, t) && OnlyColumn(cfg, s, t, m, Column9(|cfg.quorums|, r))
  {
    SixIsQuiet(|cfg.quorums|, r, PartOf(cfg, r, m), Yielding);
    var u := DecidesToYield(cfg, s, r, m);
    t := HandsOn(cfg, u, r, m);
    Chain(cfg, s, u, t);
  }

  lemma AroundIsQuiet(cfg: Config, s: State, r: Roles, todo: set<nat>, a: nat, b: nat, col: Column, m: nat)
    requires GoodCast(cfg, r) && Around(cfg, s, r, todo, a, b, col)
    requires a >= 5 && b >= 5 && Quiet(r, col) && m < |cfg.quorums|
    ensures Quiet(r, ColumnOf(cfg, s, m)) && NoUps(ColumnOf(cfg, s, m))
  {
    if m != r.x {
      LevelsAreQuiet(|cfg.quorums|, r, PartOf(cfg, r, m), if m in todo then a else b);
    }
  }

  /** x's column once y has decided, and once e has got its lock. */
  function Decided(cfg: Config, r: Roles): Column
    requires Cast(|cfg.quorums|, r)
  {
    Column6(|cfg.quorums|, r, PartOf(cfg, r, r.x), Yielding)
  }

  lemma XDecides(cfg: Config, s: State, r: Roles, all: set<nat>) returns (t: State)
    requires Reading(cfg, s, r, {}) && forall m: nat :: m < |cfg.quorums| ==> m in all
    ensures Leads(cfg, s, t) && Around(cfg, t, r, all, 5, 6, Decided(cfg, r)) && t.phase == s.phase
  {
    var n := |cfg.quorums|;
    var w :| w in cfg.quorums[r.p] && w in cfg.quorums[r.y] && w != r.x;
    StandsFailed(cfg, s, r.y, w);
    ReadingIsQuiet(cfg, s, r, {}, r.y);
    ReadsAgain(n, r, PartOf(cfg, r, r.x));
    t := DecidesToYield(cfg, s, r, r.x);
  }

  lemma OneMoreReadsAgain(cfg: Config, s: State, r: Roles, m: nat, todo: set<nat>) returns (t: State)
    requires GoodCast(cfg, r) && Around(cfg, s, r, todo, 5, 6, Decided(cfg, r))
    requires m in todo && m < |cfg.quorums|
    ensures Leads(cfg, s, t) && Around(cfg, t, r, todo - {m}, 5, 6, Decided(cfg, r)) && t.phase == s.phase
  {
    var n, q := |cfg.quorums|, PartOf(cfg, r, m);
    SixIsQuiet(n, r, PartOf(cfg, r, r.x), Yielding);
    AroundIsQuiet(cfg, s, r, todo, 5, 6, Decided(cfg, r), r.y);
    NothingAhead(cfg, s, m, r.y);
    ReadsAgain(n, r, q);
    if m != r.x && q.y && q.held {
      t := Hears(cfg, s, r.y, m, Column6(n, r, q, Unread));
    } else {
      t := s;
      Stay(cfg, s);
    }
  }

  lemma {:induction false} AllReadAgain(cfg: Config, s: State, r: Roles, todo: set<nat>) returns (t: State)
    requires GoodCast(cfg, r) && Around(cfg, s, r, todo, 5, 6, Decided(cfg, r))
    requires forall m <- todo :: m < |cfg.quorums|
    ensures Leads(cfg, s, t) && Around(cfg, t, r, {}, 5, 6, Decided(cfg, r)) && t.phase == s.phase
    decreases todo
  {
    if todo == {} {
      t := s;
      Stay(cfg, s);
    } else {
      var m :| m in todo;
      var u := OneMoreReadsAgain(cfg, s, r, m, todo);
      t := AllReadAgain(cfg, u, r, todo - {m});
      Chain(cfg, s, u, t);
    }
  }

  lemma YHasAll(cfg: Config, s: State, r: Roles, m: nat)
    requires GoodCast(cfg, r) && Around(cfg, s, r, {}, 5, 6, Decided(cfg, r)) && m < |cfg.quorums|
    requires m in cfg.quorums[r.y]
    ensures ColumnOf(cfg, s, m).cells[r.y].standing == GotLocked
  {
  }

  lemma StaysAround(cfg: Config, s: State, t: State, r: Roles)
    requires GoodCast(cfg, r) && Around(cfg, s, r, {}, 5, 6, Decided(cfg, r)) && Unchanged(cfg, s, t, {})
    ensures Around(cfg, t, r, {}, 5, 6, Decided(cfg, r))
  {
  }

  /** y has all it needs, and enters. */
  lemma YEnters(cfg: Config, s: State, r: Roles) returns (t: State)
    requires GoodCast(cfg, r) && Around(cfg, s, r, {}, 5, 6, Decided(cfg, r)) && s.phase[r.y] == Waiting
    ensures Leads(cfg, s, t) && Around(cfg, t, r, {}, 5, 6, Decided(cfg, r)) && t.phase == s.phase[r.y := Inside]
  {
    forall m: nat | m < |cfg.quorums| && m in cfg.quorums[r.y]
      ensures ColumnOf(cfg, s, m).cells[r.y].standing == GotLocked
    {
      YHasAll(cfg, s, r, m);
    }
    t := EntersGranted(cfg, s, r.y);
    StaysAround(cfg, s, t, r);
  }

  /** Then it gives x's lock back all the same. */
  lemma XHandsOn(cfg: Config, s: State, r: Roles, all: set<nat>) returns (t: State)
    requires GoodCast(cfg, r) && Around(cfg, s, r, {}, 5, 6, Decided(cfg, r))
    requires forall m: nat :: m < |cfg.quorums| ==> m in all
    ensures Leads(cfg, s, t) && Around(cfg, t, r, all, 6, 9, Column9(|cfg.quorums|, r)) && t.phase == s.phase
  {
    SixIsQuiet(|cfg.quorums|, r, PartOf(cfg, r, r.x), Yielding);
    AroundIsQuiet(cfg, s, r, {}, 5, 6, Decided(cfg, r), r.y);
    AroundIsQuiet(cfg, s, r, {}, 5, 6, Decided(cfg, r), r.e);
    t := HandsOn(cfg, s, r, r.x);
  }

  lemma OneMoreHandedOn(cfg: Config, s: State, r: Roles, m: nat, todo: set<nat>) returns (t: State)
    requires GoodCast(cfg, r) && Around(cfg, s, r, todo, 6, 9, Column9(|cfg.quorums|, r))
    requires m in todo && m < |cfg.quorums|
    ensures Leads(cfg, s, t) && Around(cfg, t, r, todo - {m}, 6, 9, Column9(|cfg.quorums|, r)) && t.phase == s.phase
  {
    var n, q := |cfg.quorums|, PartOf(cfg, r, m);
    if m != r.x && q.y && q.e {
      NineIsQuiet(n, r);
      AroundIsQuiet(cfg, s, r, todo, 6, 9, Column9(n, r), r.y);
      AroundIsQuiet(cfg, s, r, todo, 6, 9, Column9(n, r), r.e);
      StandsFailed(cfg, s, r.y, r.x);
      t := DecidesAndHandsOn(cfg, s, r, m);
    } else {
      t := s;
      Stay(cfg, s);
    }
  }

  lemma {:induction false} AllHandedOn(cfg: Config, s: State, r: Roles, todo: set<nat>) returns (t: State)
    requires GoodCast(cfg, r) && Around(cfg, s, r, todo, 6, 9, Column9(|cfg.quorums|, r))
    requires forall m <- todo :: m < |cfg.quorums|
    ensures Leads(cfg, s, t) && Around(cfg, t, r, {}, 6, 9, Column9(|cfg.quorums|, r)) && t.phase == s.phase
    decreases todo
  {
    if todo == {} {
      t := s;
      Stay(cfg, s);
    } else {
      var m :| m in todo;
      var u := OneMoreHandedOn(cfg, s, r, m, todo);
      t := AllHandedOn(cfg, u, r, todo - {m});
      Chain(cfg, s, u, t);
    }
  }

  lemma EEnters(cfg: Config, s: State, r: Roles) returns (t: State)
    requires GoodCast(cfg, r) && Around(cfg, s, r, {}, 6, 9, Column9(|cfg.quorums|, r)) && s.phase[r.e] == Waiting
    ensures Leads(cfg, s, t) && t.phase == s.phase[r.e := Inside]
  {
    t := EntersGranted(cfg, s, r.e);
  }

  // ---------------------------------------------------------------- the whole of it

  ghost predicate AllAsked(cfg: Config, s: State, r: Roles) {
    && GoodCast(cfg, r) && Shaped(cfg, s) && s.phase[r.e] == Waiting && s.phase[r.y] == Waiting
    && forall m: nat :: m < |cfg.quorums| ==> ColumnOf(cfg, s, m) == Column1(|cfg.quorums|, r, PartOf(cfg, r, m))
  }

  function UpTo(n: nat): (all: set<nat>)
    ensures forall m: nat :: m in all <==> m < n
  {
    if n == 0 then {} else UpTo(n - 1) + {n - 1}
  }

  /** From the moment when all have asked, y gets in, */
  lemma YGetsIn(cfg: Config, s: State, r: Roles) returns (t: State)
    requires AllAsked(cfg, s, r)
    ensures Leads(cfg, s, t) && Around(cfg, t, r, {}, 5, 6, Decided(cfg, r)) && t.phase == s.phase[r.y := Inside]
  {
    var all := UpTo(|cfg.quorums|);
    var s4 := AllSettle(cfg, s, r, all);
    var s5 := AllRead(cfg, s4, r, all);
    var s6 := XDecides(cfg, s5, r, all);
    var s7 := AllReadAgain(cfg, s6, r, all);
    t := YEnters(cfg, s7, r);
    Chain(cfg, s, s4, s5);
    Chain(cfg, s, s5, s6);
    Chain(cfg, s, s6, s7);
    Chain(cfg, s, s7, t);
  }

  /** and so does e. */
  lemma BothGetIn(cfg: Config, s: State, r: Roles) returns (t: State)
    requires AllAsked(cfg, s, r)
    ensures Leads(cfg, s, t) && t.phase == s.phase[r.y := Inside][r.e := Inside]
  {
    var all := UpTo(|cfg.quorums|);
    var u := YGetsIn(cfg, s, r);
    var v := XHandsOn(cfg, u, r, all);
    var w := AllHandedOn(cfg, v, r, all);
    t := EEnters(cfg, w, r);
    Chain(cfg, s, u, v);
    Chain(cfg, s, v, w);
    Chain(cfg, s, w, t);
  }

  // ---------------------------------------------------------------- how they come to have asked

  /** What client k has seen when p, the first to ask, has been in. */
  function Seen(cfg: Config, s: State, p: nat, k: nat): nat
    requires p < |cfg.quorums| == |s.clients| && k < |cfg.quorums|
  {
    var h := s.clients[k].hgstSeq;
    if k in cfg.quorums[p] && h < s.clients[p].hgstSeq + 1 then s.clients[p].hgstSeq + 1 else h
  }

  function RolesOf(cfg: Config, s: State, p: nat, e: nat, y: nat, x: nat): Roles
    requires p < |cfg.quorums| == |s.clients| && e < |cfg.quorums| && y < |cfg.quorums|
  {
    Roles(p, e, y, x, Req(s.clients[p].hgstSeq + 1, p), Req(Seen(cfg, s, p, e) + 1, e), Req(Seen(cfg, s, p, y) + 1, y))
  }

  /** p has left, then e has asked. */
  function Column0(n: nat, r: Roles, q: Part): Column
    requires Cast(n, r)
  {
    if q.held then LeftColumnOf(n, r.p, r.rp) else IdleColumn(n)
  }

  function ColumnE(n: nat, r: Roles, q: Part): Column
    requires Cast(n, r)
  {
    if q.e then Asked(Column0(n, r, q), r.e, r.re) else Column0(n, r, q)
  }

  lemma AsksBoth(n: nat, r: Roles, q: Part)
    requires Cast(n, r)
    ensures (if q.y then Asked(ColumnE(n, r, q), r.y, r.ry) else ColumnE(n, r, q)) == Column1(n, r, q)
  {
    SameTrio(n, r, if q.y then Asked(ColumnE(n, r, q), r.y, r.ry) else ColumnE(n, r, q), Column1(n, r, q));
  }

  lemma SendsNothing(n: nat, r: Roles, q: Part)
    requires Cast(n, r)
    ensures forall k :: 0 <= k < n ==> Column0(n, r, q).cells[k].down == [] && ColumnE(n, r, q).cells[k].down == []
  {
  }

  /** p has left; its RELEASE is on its way to its quorum, but x has it. */
  ghost predicate HasLeft(cfg: Config, s: State, r: Roles) {
    && GoodCast(cfg, r) && Shaped(cfg, s)
    && (forall k :: 0 <= k < |cfg.quorums| ==> s.phase[k] == Outside)
    && forall m: nat :: m < |cfg.quorums| ==> ColumnOf(cfg, s, m) == Column0(|cfg.quorums|, r, PartOf(cfg, r, m))
  }

  /** e has asked, too. */
  ghost predicate HasAsked(cfg: Config, s: State, r: Roles) {
    && GoodCast(cfg, r) && Shaped(cfg, s)
    && (forall k :: 0 <= k < |cfg.quorums| ==> s.phase[k] == if k == r.e then Waiting else Outside)
    && forall m: nat :: m < |cfg.quorums| ==> ColumnOf(cfg, s, m) == ColumnE(|cfg.quorums|, r, PartOf(cfg, r, m))
  }

  /** The numbers that e and y will ask with. */
  ghost predicate Numbered(s: State, r: Roles) {
    && r.e < |s.clients| && r.y < |s.clients|
    && s.clients[r.e].hgstSeq + 1 == r.re.timestamp && s.clients[r.y].hgstSeq + 1 == r.ry.timestamp
  }

  lemma RaisedIsSeen(cfg: Config, s: State, t: State, r: Roles)
    requires Cast(|cfg.quorums|, r) && |s.clients| == |cfg.quorums| && r == RolesOf(cfg, s, r.p, r.e, r.y, r.x)
    requires Raised(s, t, cfg.quorums[r.p], r.rp.timestamp)
    ensures Numbered(t, r)
  {
  }

  /** x has treated p's RELEASE, if there is one for it. */
  lemma XIsFree(cfg: Config, s: State, r: Roles) returns (t: State)
    requires GoodCast(cfg, r) && GoingOut(cfg, s, r.p, r.rp, cfg.quorums[r.p])
    requires forall k :: 0 <= k < |cfg.quorums| ==> s.phase[k] == Outside
    ensures Leads(cfg, s, t) && HasLeft(cfg, t, r) && SameNumbers(s, t)
  {
    if r.x in cfg.quorums[r.p] {
      t := GetsFree(cfg, s, r.p, r.rp, r.x);
    } else {
      t := s;
      Stay(cfg, s);
    }
  }

  lemma PHasBeenIn(cfg: Config, s: State, r: Roles) returns (t: State)
    requires AllIdle(cfg, s) && GoodCast(cfg, r) && r == RolesOf(cfg, s, r.p, r.e, r.y, r.x)
    ensures Leads(cfg, s, t) && HasLeft(cfg, t, r) && Numbered(t, r)
  {
    var left, rp := InAndLeft(cfg, s, r.p);
    assert rp == r.rp;
    t := XIsFree(cfg, left, r);
    RaisedIsSeen(cfg, s, left, r);
    Chain(cfg, s, left, t);
  }

  lemma NothingFromAny(cfg: Config, s: State, i: nat)
    requires Shaped(cfg, s) && i < |cfg.quorums|
    requires forall k :: 0 <= k < |cfg.quorums| ==> ColumnOf(cfg, s, i).cells[k].down == []
    ensures NothingFrom(cfg, s, i)
  {
    CellsOf(cfg, s, i);
  }

  lemma ECanAsk(cfg: Config, s: State, r: Roles)
    requires HasLeft(cfg, s, r)
    ensures NothingFrom(cfg, s, r.e)
  {
    SendsNothing(|cfg.quorums|, r, PartOf(cfg, r, r.e));
    NothingFromAny(cfg, s, r.e);
  }

  lemma YCanAsk(cfg: Config, s: State, r: Roles)
    requires HasAsked(cfg, s, r)
    ensures NothingFrom(cfg, s, r.y)
  {
    SendsNothing(|cfg.quorums|, r, PartOf(cfg, r, r.y));
    NothingFromAny(cfg, s, r.y);
  }

  lemma AsksWith(cfg: Config, s: State, i: nat, r: Req) returns (t: State)
    requires NothingFrom(cfg, s, i) && s.phase[i] == Outside && r == Req(s.clients[i].hgstSeq + 1, i)
    ensures Leads(cfg, s, t) && Shaped(cfg, s) && Shaped(cfg, t)
    ensures t.phase == s.phase[i := Waiting] && SameNumbers(s, t) && Unchanged(cfg, s, t, cfg.quorums[i])
    ensures forall m: nat :: m < |cfg.quorums| && m in cfg.quorums[i] ==>
      ColumnOf(cfg, t, m) == Asked(ColumnOf(cfg, s, m), i, r)
  {
    var req: Req;
    t, req := Asks(cfg, s, i);
  }

  lemma EAsks(cfg: Config, s: State, r: Roles) returns (t: State)
    requires HasLeft(cfg, s, r) && Numbered(s, r)
    ensures Leads(cfg, s, t) && HasAsked(cfg, t, r) && Numbered(t, r)
  {
    ECanAsk(cfg, s, r);
    t := AsksWith(cfg, s, r.e, r.re);
    AskedByE(cfg, s, t, r);
  }

  lemma AskedByE(cfg: Config, s: State, t: State, r: Roles)
    requires HasLeft(cfg, s, r) && t.phase == s.phase[r.e := Waiting] && Unchanged(cfg, s, t, cfg.quorums[r.e])
    requires forall m: nat :: m < |cfg.quorums| && m in cfg.quorums[r.e] ==>
      ColumnOf(cfg, t, m) == Asked(ColumnOf(cfg, s, m), r.e, r.re)
    ensures HasAsked(cfg, t, r)
  {
    forall m: nat | m < |cfg.quorums| ensures ColumnOf(cfg, t, m) == ColumnE(|cfg.quorums|, r, PartOf(cfg, r, m)) {
      assert ColumnOf(cfg, s, m) == Column0(|cfg.quorums|, r, PartOf(cfg, r, m));
    }
  }

  lemma YAsks(cfg: Config, s: State, r: Roles) returns (t: State)
    requires HasAsked(cfg, s, r) && Numbered(s, r)
    ensures Leads(cfg, s, t) && AllAsked(cfg, t, r)
  {
    YCanAsk(cfg, s, r);
    t := AsksWith(cfg, s, r.y, r.ry);
    AskedByY(cfg, s, t, r);
  }

  lemma AskedByY(cfg: Config, s: State, t: State, r: Roles)
    requires HasAsked(cfg, s, r) && t.phase == s.phase[r.y := Waiting] && Unchanged(cfg, s, t, cfg.quorums[r.y])
    requires forall m: nat :: m < |cfg.quorums| && m in cfg.quorums[r.y] ==>
      ColumnOf(cfg, t, m) == Asked(ColumnOf(cfg, s, m), r.y, r.ry)
    ensures AllAsked(cfg, t, r)
  {
    forall m: nat | m < |cfg.quorums| ensures ColumnOf(cfg, t, m) == Column1(|cfg.quorums|, r, PartOf(cfg, r, m)) {
      assert ColumnOf(cfg, s, m) == ColumnE(|cfg.quorums|, r, PartOf(cfg, r, m));
      AsksBoth(|cfg.quorums|, r, PartOf(cfg, r, m));
    }
  }

  /**
   From a state in which nobody wants anything: p goes in and out, e asks and y asks, and in the end y and e
   are both inside, provided that y's request comes after p's and after e's.
  */
  lemma LateRun(cfg: Config, s: State, p: nat, e: nat, y: nat, x: nat) returns (t: State)
    requires AllIdle(cfg, s) && p < |cfg.quorums| && e < |cfg.quorums| && y < |cfg.quorums|
    requires GoodCast(cfg, RolesOf(cfg, s, p, e, y, x))
    ensures Leads(cfg, s, t) && Shaped(cfg, t) && e != y && t.phase[e] == Inside && t.phase[y] == Inside
  {
    var r := RolesOf(cfg, s, p, e, y, x);
    var left := PHasBeenIn(cfg, s, r);
    var one := EAsks(cfg, left, r);
    var asked := YAsks(cfg, one, r);
    t := BothGetIn(cfg, asked, r);
    Chain(cfg, s, left, one);
    Chain(cfg, s, one, asked);
    Chain(cfg, s, asked, t);
    LeadsShaped(cfg, s, t);
  }
}

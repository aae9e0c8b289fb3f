/**
 A client that nobody disturbs: from a state without messages it asks, is granted the lock by its
 whole quorum, enters, and can leave again.
*/
module MaekawaRound {
  import opened Numbers
  import opened MessageQueue
  import opened MaekawaNode
  import opened MaekawaSystem
  import opened MaekawaOrder
  import opened MaekawaColumns

  // ---------------------------------------------------------------- what an arbiter answers

  function AllReplied(n: nat): seq<bool> { seq(n, _ => true) }

  function FreeArbiter(n: nat): Arbiter { Arbiter(Free, multiset{}, AllReplied(n)) }

  function HeldArbiter(n: nat, r: Req): Arbiter { Arbiter(Held(r), multiset{}, AllReplied(n)) }

  function Contended(n: nat, r: Req, waiting: Req): Arbiter { Arbiter(Held(r), multiset{waiting}, AllReplied(n)) }

  lemma Grants(n: nat, i: nat, r: Req, maxSize: nat)
    requires i < n
    ensures ArbiterTakes(FreeArbiter(n), i, Request(r), maxSize)
         == ArbiterStep(HeldArbiter(n, r), To(r.sender, Locked))
  {
  }

  lemma Refuses(n: nat, i: nat, h: Req, r: Req, maxSize: nat)
    requires i < n && 0 <= h.sender < n && Later(r, h) && maxSize > 0
    ensures ArbiterTakes(HeldArbiter(n, h), i, Request(r), maxSize)
         == ArbiterStep(Contended(n, h, r), To(r.sender, Failed))
  {
    assert Pushed(multiset{}, r, maxSize) == multiset{r};
  }

  lemma Inquires(n: nat, i: nat, h: Req, r: Req, maxSize: nat)
    requires i < n && 0 <= h.sender < n && Later(h, r) && maxSize > 0
    ensures ArbiterTakes(HeldArbiter(n, h), i, Request(r), maxSize)
         == ArbiterStep(Contended(n, h, r).(inquireReplied := AllReplied(n)[h.sender := false]), To(h.sender, Inquire))
  {
    assert Pushed(multiset{}, r, maxSize) == multiset{r};
    LeastOfOne(r);
  }

  lemma Frees(n: nat, i: nat, h: Req, maxSize: nat)
    requires i < n && 0 <= h.sender < n
    ensures ArbiterTakes(HeldArbiter(n, h), i, Release, maxSize) == ArbiterStep(FreeArbiter(n), Nothing)
  {
    assert AllReplied(n)[i := true] == AllReplied(n);
  }

  lemma HandsOver(n: nat, i: nat, h: Req, r: Req, maxSize: nat)
    requires i < n && 0 <= h.sender < n
    ensures ArbiterTakes(Contended(n, h, r), i, Release, maxSize)
         == ArbiterStep(HeldArbiter(n, r), To(r.sender, Locked))
  {
    LeastOfOne(r);
    assert multiset{r} - multiset{r} == multiset{};
    assert AllReplied(n)[i := true] == AllReplied(n);
  }

  lemma Swaps(n: nat, i: nat, h: Req, r: Req, maxSize: nat)
    requires i < n && 0 <= h.sender < n && maxSize > 0
    ensures ArbiterTakes(Contended(n, h, r).(inquireReplied := AllReplied(n)[i := false]), i, Relinquish, maxSize)
         == ArbiterStep(Contended(n, r, h), To(r.sender, Locked))
  {
    LeastOfOne(r);
    assert multiset{r} - multiset{r} == multiset{};
    assert Pushed(multiset{}, h, maxSize) == multiset{h};
    assert AllReplied(n)[i := false][i := true] == AllReplied(n);
  }

  // ---------------------------------------------------------------- columns of an undisturbed client

  const BLANK := Cell([], [], NoReply, Unread)

  function Blanks(n: nat): seq<Cell> { seq(n, _ => BLANK) }

  function IdleColumn(n: nat): Column { Column(FreeArbiter(n), Blanks(n)) }

  function AskedColumnOf(n: nat, i: nat, r: Req): Column
    requires i < n
  {
    Column(FreeArbiter(n), Blanks(n)[i := Cell([Request(r)], [], AwaitingReply, Unread)])
  }

  function HeldColumnOf(n: nat, i: nat, r: Req): Column
    requires i < n
  {
    Column(HeldArbiter(n, r), Blanks(n)[i := Cell([], [], GotLocked, Unread)])
  }

  function LeftColumnOf(n: nat, i: nat, r: Req): Column
    requires i < n
  {
    Column(HeldArbiter(n, r), Blanks(n)[i := Cell([Release], [], NoReply, Unread)])
  }

  /** Nothing is under way in the column but, perhaps, a message of client i. */
  ghost predicate Mute(col: Column, i: nat, perhaps: bool) {
    forall k :: 0 <= k < |col.cells| ==> col.cells[k].down == [] && (col.cells[k].up == [] || (k == i && perhaps))
  }

  /** Nothing is under way but messages of client i to the arbiters in todo. */
  ghost predicate Only(cfg: Config, s: State, i: nat, todo: set<nat>) {
    Shaped(cfg, s) && forall m: nat :: m < |cfg.quorums| ==> Mute(ColumnOf(cfg, s, m), i, m in todo)
  }

  ghost predicate Silent(cfg: Config, s: State) { Only(cfg, s, 0, {}) }

  /** The columns of all arbiters but those named are in t as they are in s. */
  ghost predicate Unchanged(cfg: Config, s: State, t: State, but: set<nat>) {
    && Shaped(cfg, s) && Shaped(cfg, t)
    && forall m: nat :: m < |cfg.quorums| && m !in but ==> ColumnOf(cfg, t, m) == ColumnOf(cfg, s, m)
  }

  lemma SilentChannels(cfg: Config, s: State, m: nat, k: nat)
    requires Silent(cfg, s) && m < |cfg.quorums| && k < |cfg.quorums|
    ensures s.down[m][k] == [] && s.up[k][m] == []
  {
    CellsOf(cfg, s, m);
    assert Mute(ColumnOf(cfg, s, m), 0, false);
  }

  lemma CellsOf(cfg: Config, s: State, m: nat)
    requires Shaped(cfg, s) && m < |cfg.quorums|
    ensures forall k: nat :: k < |cfg.quorums| ==>
      && ColumnOf(cfg, s, m).cells[k] == CellOf(cfg, s, k, m)
      && s.up[k][m] == ColumnOf(cfg, s, m).cells[k].up && s.down[m][k] == ColumnOf(cfg, s, m).cells[k].down
    ensures ColumnOf(cfg, s, m).arbiter == s.arbiters[m]
  {
  }

  function GrantedColumnOf(n: nat, i: nat, r: Req): Column
    requires i < n
  {
    Column(HeldArbiter(n, r), Blanks(n)[i := Cell([], [Locked], AwaitingReply, Unread)])
  }

  lemma TakesRequest(n: nat, i: nat, r: Req, maxSize: nat)
    requires i < n && r.sender == i
    ensures CanTake(AskedColumnOf(n, i, r), i)
    ensures Taken(AskedColumnOf(n, i, r), i, maxSize) == GrantedColumnOf(n, i, r)
  {
    Grants(n, i, r, maxSize);
    var col := AskedColumnOf(n, i, r);
    assert [Request(r)][1..] == [] && [] + [Locked] == [Locked];
    assert Taken(col, i, maxSize).cells[i] == Cell([], [Locked], AwaitingReply, Unread);
    assert Taken(col, i, maxSize).cells == GrantedColumnOf(n, i, r).cells;
  }

  lemma HearsLocked(n: nat, i: nat, r: Req)
    requires i < n
    ensures Heard(GrantedColumnOf(n, i, r), i) == HeldColumnOf(n, i, r)
  {
    assert [Locked][1..] == [];
    assert Heard(GrantedColumnOf(n, i, r), i).cells == HeldColumnOf(n, i, r).cells;
  }

  /** Arbiter m grants client i's request, and the client hears of it. */
  lemma GetsLock(cfg: Config, s: State, i: nat, r: Req, m: nat, todo: set<nat>) returns (t: State)
    requires Only(cfg, s, i, todo) && i < |cfg.quorums| && m < |cfg.quorums| && m in todo && m in cfg.quorums[i]
    requires ColumnOf(cfg, s, m) == AskedColumnOf(|cfg.quorums|, i, r) && r.sender == i
    ensures Leads(cfg, s, t)
    ensures OnlyColumn(cfg, s, t, m, HeldColumnOf(|cfg.quorums|, i, r))
    ensures Raised(s, t, {m}, r.timestamp)
  {
    var n := |cfg.quorums|;
    CellsOf(cfg, s, m);
    Grants(n, i, r, cfg.maxSize);
    TakesRequest(n, i, r, cfg.maxSize);
    TakesColumn(cfg, s, i, m);
    var u := Apply(cfg, s, AtArbiter(i, m));
    CellsOf(cfg, u, m);
    StillEmpty(cfg, s, u, i, m, todo);
    HeardColumn(cfg, u, i, m);
    HearsLocked(n, i, r);
    t := Apply(cfg, u, AtClient(i, m));
    One(cfg, s, AtArbiter(i, m));
    One(cfg, u, AtClient(i, m));
    Chain(cfg, s, u, t);
  }

  /** Client m has nothing under way to arbiter i that could be in the way of arbiter m's answer. */
  lemma StillEmpty(cfg: Config, s: State, u: State, i: nat, m: nat, todo: set<nat>)
    requires Only(cfg, s, i, todo) && i < |cfg.quorums| && m < |cfg.quorums| && m in todo
    requires Shaped(cfg, u) && OnlyColumn(cfg, s, u, m, ColumnOf(cfg, u, m)) && u.up[i][m] == []
    ensures u.up[m][i] == []
  {
    if m != i {
      CellsOf(cfg, u, i);
      assert ColumnOf(cfg, u, i) == ColumnOf(cfg, s, i) && Mute(ColumnOf(cfg, s, i), i, i in todo);
    }
  }

  // ---------------------------------------------------------------- the whole quorum

  /** The quorum has granted i's request, but for the members in todo, which have not seen it yet. */
  ghost predicate GoingIn(cfg: Config, s: State, i: nat, r: Req, todo: set<nat>) {
    && Only(cfg, s, i, todo) && i < |cfg.quorums| && todo <= cfg.quorums[i]
    && forall m: nat :: m < |cfg.quorums| && m in cfg.quorums[i] ==>
         ColumnOf(cfg, s, m)
           == if m in todo then AskedColumnOf(|cfg.quorums|, i, r) else HeldColumnOf(|cfg.quorums|, i, r)
  }

  lemma OneMoreGranted(cfg: Config, s: State, i: nat, r: Req, m: nat, todo: set<nat>) returns (t: State)
    requires GoingIn(cfg, s, i, r, todo) && r.sender == i && m in todo && m < |cfg.quorums|
    ensures Leads(cfg, s, t) && GoingIn(cfg, t, i, r, todo - {m}) && t.phase == s.phase
    ensures Unchanged(cfg, s, t, {m}) && Raised(s, t, {m}, r.timestamp)
  {
    t := GetsLock(cfg, s, i, r, m, todo);
    FewerUnderWay(cfg, s, t, i, r, m, todo);
  }

  lemma FewerUnderWay(cfg: Config, s: State, t: State, i: nat, r: Req, m: nat, todo: set<nat>)
    requires GoingIn(cfg, s, i, r, todo) && m in todo
    requires OnlyColumn(cfg, s, t, m, HeldColumnOf(|cfg.quorums|, i, r))
    ensures GoingIn(cfg, t, i, r, todo - {m})
  {
    forall j: nat | j < |cfg.quorums| ensures Mute(ColumnOf(cfg, t, j), i, j in todo - {m}) {
      assert Mute(ColumnOf(cfg, s, j), i, j in todo);
      if j != m { assert ColumnOf(cfg, t, j) == ColumnOf(cfg, s, j); }
    }
  }

  lemma {:induction false} AllGranted(cfg: Config, s: State, i: nat, r: Req, todo: set<nat>)
    returns (t: State)
    requires GoingIn(cfg, s, i, r, todo) && r.sender == i && forall m <- todo :: m < |cfg.quorums|
    ensures Leads(cfg, s, t) && GoingIn(cfg, t, i, r, {}) && t.phase == s.phase
    ensures Unchanged(cfg, s, t, todo) && Raised(s, t, todo, r.timestamp)
    decreases todo
  {
    if todo == {} {
      t := s;
      Stay(cfg, s);
    } else {
      var m :| m in todo;
      var u := OneMoreGranted(cfg, s, i, r, m, todo);
      t := AllGranted(cfg, u, i, r, todo - {m});
      Chain(cfg, s, u, t);
    }
  }

  lemma AsksColumn(n: nat, i: nat, r: Req)
    requires i < n
    ensures Asked(IdleColumn(n), i, r) == AskedColumnOf(n, i, r)
  {
    assert [] + [Request(r)] == [Request(r)];
  }

  /** Arbiter i's client has no message under way to anybody. */
  ghost predicate NothingFrom(cfg: Config, s: State, i: nat) {
    Shaped(cfg, s) && i < |cfg.quorums| && forall b :: 0 <= b < |cfg.quorums| ==> s.down[i][b] == []
  }

  lemma Asks(cfg: Config, s: State, i: nat) returns (t: State, r: Req)
    requires NothingFrom(cfg, s, i) && s.phase[i] == Outside
    ensures Leads(cfg, s, t) && r == Req(s.clients[i].hgstSeq + 1, i)
    ensures t.phase == s.phase[i := Waiting] && SameNumbers(s, t) && Unchanged(cfg, s, t, cfg.quorums[i])
    ensures forall m: nat :: m < |cfg.quorums| && m in cfg.quorums[i] ==>
      ColumnOf(cfg, t, m) == Asked(ColumnOf(cfg, s, m), i, r)
  {
    r := Req(s.clients[i].hgstSeq + 1, i);
    t := Apply(cfg, s, Ask(i));
    AskedColumn(cfg, s, i, i);
    One(cfg, s, Ask(i));
    forall m: nat | m < |cfg.quorums|
      ensures ColumnOf(cfg, t, m)
           == if m in cfg.quorums[i] then Asked(ColumnOf(cfg, s, m), i, r) else ColumnOf(cfg, s, m)
    {
      AskedColumn(cfg, s, i, m);
    }
  }

  lemma Leaves(cfg: Config, s: State, i: nat) returns (t: State)
    requires NothingFrom(cfg, s, i) && s.phase[i] == Inside
    ensures Leads(cfg, s, t)
    ensures t.phase == s.phase[i := Outside] && SameNumbers(s, t) && Unchanged(cfg, s, t, cfg.quorums[i])
    ensures forall m: nat :: m < |cfg.quorums| && m in cfg.quorums[i] ==>
      ColumnOf(cfg, t, m) == Left(ColumnOf(cfg, s, m), i)
  {
    t := Apply(cfg, s, Leave(i));
    LeftColumn(cfg, s, i, i);
    One(cfg, s, Leave(i));
    forall m: nat | m < |cfg.quorums|
      ensures ColumnOf(cfg, t, m) == if m in cfg.quorums[i] then Left(ColumnOf(cfg, s, m), i) else ColumnOf(cfg, s, m)
    {
      LeftColumn(cfg, s, i, m);
    }
  }

  /** The quorum's columns, idle before, carry the request. */
  lemma AsksQuorum(cfg: Config, s: State, i: nat) returns (t: State, r: Req)
    requires Silent(cfg, s) && i < |cfg.quorums| && s.phase[i] == Outside
    requires forall m <- cfg.quorums[i] :: m < |cfg.quorums| && ColumnOf(cfg, s, m) == IdleColumn(|cfg.quorums|)
    ensures r == Req(s.clients[i].hgstSeq + 1, i)
    ensures Leads(cfg, s, t) && GoingIn(cfg, t, i, r, cfg.quorums[i])
    ensures t.phase == s.phase[i := Waiting] && SameNumbers(s, t)
    ensures Unchanged(cfg, s, t, cfg.quorums[i])
  {
    forall b: nat | b < |cfg.quorums| ensures s.down[i][b] == [] { SilentChannels(cfg, s, i, b); }
    t, r := Asks(cfg, s, i);
    AsksColumn(|cfg.quorums|, i, r);
    forall m: nat | m < |cfg.quorums| ensures Mute(ColumnOf(cfg, t, m), i, m in cfg.quorums[i]) {
      assert Mute(ColumnOf(cfg, s, m), 0, false);
    }
  }

  /** With the whole quorum granted the client enters, and no column changes. */
  lemma EntersGranted(cfg: Config, s: State, i: nat) returns (t: State)
    requires Shaped(cfg, s) && i < |cfg.quorums| && s.phase[i] == Waiting
    requires forall m <- cfg.quorums[i] :: m < |cfg.quorums| && ColumnOf(cfg, s, m).cells[i].standing == GotLocked
    ensures Leads(cfg, s, t) && Unchanged(cfg, s, t, {})
    ensures t.phase == s.phase[i := Inside] && SameNumbers(s, t)
  {
    forall m | m in cfg.quorums[i] ensures s.clients[i].replies[m] == GotLocked {
      assert ColumnOf(cfg, s, m).cells[i] == CellOf(cfg, s, i, m);
    }
    t := Apply(cfg, s, Enter(i));
    EnteredColumn(cfg, s, i, i);
    One(cfg, s, Enter(i));
    forall m: nat | m < |cfg.quorums| ensures ColumnOf(cfg, t, m) == ColumnOf(cfg, s, m) {
      EnteredColumn(cfg, s, i, m);
    }
  }

  lemma StaysSilent(cfg: Config, s: State, t: State)
    requires Silent(cfg, s) && Unchanged(cfg, s, t, {})
    ensures Silent(cfg, t)
  {
    forall m: nat | m < |cfg.quorums| ensures Mute(ColumnOf(cfg, t, m), 0, false) {
      assert Mute(ColumnOf(cfg, s, m), 0, false);
    }
  }

  lemma GetsQuorum(cfg: Config, s: State, i: nat) returns (t: State, r: Req)
    requires Silent(cfg, s) && i < |cfg.quorums| && s.phase[i] == Outside
    requires forall m <- cfg.quorums[i] :: m < |cfg.quorums| && ColumnOf(cfg, s, m) == IdleColumn(|cfg.quorums|)
    ensures r == Req(s.clients[i].hgstSeq + 1, i)
    ensures Leads(cfg, s, t) && Silent(cfg, t) && t.phase == s.phase[i := Waiting]
    ensures HeldBy(cfg, s, t, i, r) && Raised(s, t, cfg.quorums[i], r.timestamp)
  {
    var asked, request := AsksQuorum(cfg, s, i);
    t := AllGranted(cfg, asked, i, request, cfg.quorums[i]);
    r := request;
    Chain(cfg, s, asked, t);
  }

  /**
   From a state without messages in which its quorum is idle a client gets in; its quorum holds its request,
   and the hosts of its arbiters have seen its number.
  */
  lemma GoesIn(cfg: Config, s: State, i: nat) returns (t: State, r: Req)
    requires Silent(cfg, s) && i < |cfg.quorums| && s.phase[i] == Outside
    requires forall m <- cfg.quorums[i] :: m < |cfg.quorums| && ColumnOf(cfg, s, m) == IdleColumn(|cfg.quorums|)
    ensures r == Req(s.clients[i].hgstSeq + 1, i)
    ensures Leads(cfg, s, t) && Silent(cfg, t) && t.phase == s.phase[i := Inside]
    ensures HeldBy(cfg, s, t, i, r) && Raised(s, t, cfg.quorums[i], r.timestamp)
  {
    var granted, request := GetsQuorum(cfg, s, i);
    t := EntersGranted(cfg, granted, i);
    r := request;
    StaysSilent(cfg, granted, t);
    Chain(cfg, s, granted, t);
  }

  /** Client i's quorum holds its request; the other columns are as in s. */
  ghost predicate HeldBy(cfg: Config, s: State, t: State, i: nat, r: Req) {
    && Shaped(cfg, s) && Shaped(cfg, t) && i < |cfg.quorums|
    && forall m: nat :: m < |cfg.quorums| ==>
         ColumnOf(cfg, t, m)
           == (if m in cfg.quorums[i] then HeldColumnOf(|cfg.quorums|, i, r) else ColumnOf(cfg, s, m))
  }

  /** The clients in hosts, and no others, have seen the number. */
  ghost predicate Raised(s: State, t: State, hosts: set<nat>, number: nat) {
    && |t.clients| == |s.clients|
    && forall k: nat :: k < |s.clients| ==>
         t.clients[k].hgstSeq == (if k in hosts then Max(s.clients[k].hgstSeq, number) else s.clients[k].hgstSeq)
  }

  // ---------------------------------------------------------------- and out again

  lemma LeavesColumn(n: nat, i: nat, r: Req)
    requires i < n
    ensures Left(HeldColumnOf(n, i, r), i) == LeftColumnOf(n, i, r)
  {
    assert [] + [Release] == [Release];
    assert Left(HeldColumnOf(n, i, r), i).cells == LeftColumnOf(n, i, r).cells;
  }

  lemma TakesRelease(n: nat, i: nat, r: Req, maxSize: nat)
    requires i < n && r.sender == i
    ensures CanTake(LeftColumnOf(n, i, r), i) && Ruling(LeftColumnOf(n, i, r), i, maxSize).arbiter == FreeArbiter(n)
    ensures Taken(LeftColumnOf(n, i, r), i, maxSize) == IdleColumn(n)
  {
    Frees(n, i, r, maxSize);
    assert [Release][1..] == [];
    assert Taken(LeftColumnOf(n, i, r), i, maxSize).cells == IdleColumn(n).cells;
  }

  /** Arbiter m takes client i's RELEASE, and is idle again. */
  lemma GetsFree(cfg: Config, s: State, i: nat, r: Req, m: nat) returns (t: State)
    requires Shaped(cfg, s) && i < |cfg.quorums| && m < |cfg.quorums|
    requires ColumnOf(cfg, s, m) == LeftColumnOf(|cfg.quorums|, i, r) && r.sender == i
    ensures Leads(cfg, s, t) && OnlyColumn(cfg, s, t, m, IdleColumn(|cfg.quorums|)) && SameNumbers(s, t)
  {
    CellsOf(cfg, s, m);
    TakesRelease(|cfg.quorums|, i, r, cfg.maxSize);
    TakesColumn(cfg, s, i, m);
    t := Apply(cfg, s, AtArbiter(i, m));
    One(cfg, s, AtArbiter(i, m));
  }

  /** The arbiters in todo have client i's RELEASE still to come; the others are idle. */
  ghost predicate GoingOut(cfg: Config, s: State, i: nat, r: Req, todo: set<nat>) {
    && Shaped(cfg, s) && i < |cfg.quorums|
    && forall m: nat :: m < |cfg.quorums| ==>
         ColumnOf(cfg, s, m) == if m in todo then LeftColumnOf(|cfg.quorums|, i, r) else IdleColumn(|cfg.quorums|)
  }

  lemma {:induction false} AllReturned(cfg: Config, s: State, i: nat, r: Req, todo: set<nat>) returns (t: State)
    requires GoingOut(cfg, s, i, r, todo) && r.sender == i && forall m <- todo :: m < |cfg.quorums|
    ensures Leads(cfg, s, t) && GoingOut(cfg, t, i, r, {}) && t.phase == s.phase && SameNumbers(s, t)
    decreases todo
  {
    if todo == {} {
      t := s;
      Stay(cfg, s);
    } else {
      var m :| m in todo;
      var u := GetsFree(cfg, s, i, r, m);
      t := AllReturned(cfg, u, i, r, todo - {m});
      Chain(cfg, s, u, t);
    }
  }

  /** Nobody wants anything, and nothing is under way. */
  ghost predicate AllIdle(cfg: Config, s: State) {
    && Shaped(cfg, s)
    && (forall k :: 0 <= k < |cfg.quorums| ==> s.phase[k] == Outside)
    && forall m: nat :: m < |cfg.quorums| ==> ColumnOf(cfg, s, m) == IdleColumn(|cfg.quorums|)
  }

  lemma IdleIsSilent(cfg: Config, s: State)
    requires AllIdle(cfg, s)
    ensures Silent(cfg, s)
  {
  }

  /** A silent client's column, once the client has left. */
  lemma LeavesHeld(cfg: Config, s: State, t: State, i: nat, r: Req) returns (u: State)
    requires GoodConfig(cfg) && AllIdle(cfg, s) && HeldBy(cfg, s, t, i, r) && Silent(cfg, t)
    requires t.phase == s.phase[i := Inside]
    ensures Leads(cfg, t, u) && u.phase == s.phase && SameNumbers(t, u) && GoingOut(cfg, u, i, r, cfg.quorums[i])
  {
    forall b: nat | b < |cfg.quorums| ensures t.down[i][b] == [] { SilentChannels(cfg, t, i, b); }
    u := Leaves(cfg, t, i);
    LeavesColumn(|cfg.quorums|, i, r);
    assert u.phase == s.phase;
  }

  lemma StillRaised(s: State, t: State, u: State, hosts: set<nat>, number: nat)
    requires Raised(s, t, hosts, number) && SameNumbers(t, u)
    ensures Raised(s, u, hosts, number)
  {
  }

  /** A client alone goes in and leaves; its RELEASE is on its way to its quorum. */
  lemma InAndLeft(cfg: Config, s: State, i: nat) returns (t: State, r: Req)
    requires GoodConfig(cfg) && AllIdle(cfg, s) && i < |cfg.quorums|
    ensures r == Req(s.clients[i].hgstSeq + 1, i)
    ensures Leads(cfg, s, t) && GoingOut(cfg, t, i, r, cfg.quorums[i]) && t.phase == s.phase
    ensures Raised(s, t, cfg.quorums[i], r.timestamp)
  {
    IdleIsSilent(cfg, s);
    var inside, request := GoesIn(cfg, s, i);
    r := request;
    t := LeavesHeld(cfg, s, inside, i, r);
    Chain(cfg, s, inside, t);
    StillRaised(s, inside, t, cfg.quorums[i], r.timestamp);
  }

  /** A client alone goes in and out again, and leaves nothing behind but its number. */
  lemma Round(cfg: Config, s: State, i: nat) returns (t: State)
    requires GoodConfig(cfg) && AllIdle(cfg, s) && i < |cfg.quorums|
    ensures Leads(cfg, s, t) && AllIdle(cfg, t)
    ensures Raised(s, t, cfg.quorums[i], s.clients[i].hgstSeq + 1)
  {
    var left, r := InAndLeft(cfg, s, i);
    t := AllReturned(cfg, left, i, r, cfg.quorums[i]);
    Chain(cfg, s, left, t);
  }

  lemma InitIsIdle(cfg: Config)
    requires GoodConfig(cfg)
    ensures AllIdle(cfg, Init(cfg)) && forall k :: 0 <= k < |cfg.quorums| ==> Init(cfg).clients[k].hgstSeq == 0
  {
    var n := |cfg.quorums|;
    forall m: nat | m < n ensures ColumnOf(cfg, Init(cfg), m) == IdleColumn(n) {
      assert ColumnOf(cfg, Init(cfg), m).cells == IdleColumn(n).cells;
    }
  }
}

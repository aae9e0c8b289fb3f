/**
 The state of Maekawa's system, one arbiter at a time.  A column is an arbiter with all that its
 requesters and it have to do with each other.  A step that treats a message changes one column only.
*/
module MaekawaColumns {
  import opened Numbers
  import opened MessageQueue
  import opened MaekawaNode
  import opened MaekawaArbiter
  import opened MaekawaSystem

  /** A requester's side of one arbiter. */
  datatype Cell = Cell(up: seq<Up>, down: seq<Down>, standing: Standing, stage: Stage)

  datatype Column = Column(arbiter: Arbiter, cells: seq<Cell>)

  ghost function CellOf(cfg: Config, s: State, k: nat, m: nat): Cell
    requires Shaped(cfg, s) && k < |cfg.quorums| && m < |cfg.quorums|
  {
    Cell(s.up[k][m], s.down[m][k], StandingOf(s, k, m), s.stages[k][m])
  }

  ghost function ColumnOf(cfg: Config, s: State, m: nat): Column
    requires Shaped(cfg, s) && m < |cfg.quorums|
  {
    Column(s.arbiters[m], seq(|cfg.quorums|, k requires 0 <= k < |cfg.quorums| => CellOf(cfg, s, k, m)))
  }

  // ---------------------------------------------------------------- what steps do to a column

  function WithCell(col: Column, k: nat, c: Cell): Column
    requires k < |col.cells|
  {
    col.(cells := col.cells[k := c])
  }

  function Told(col: Column, answer: Answer): Column {
    match answer
    case Nothing => col
    case To(k, m) =>
      if 0 <= k < |col.cells| then WithCell(col, k, col.cells[k].(down := col.cells[k].down + [m])) else col
  }

  ghost predicate CanTake(col: Column, i: nat) {
    && i < |col.cells| && col.cells[i].up != []
    && ArbiterShape(col.arbiter, |col.cells|)
  }

  ghost function Ruling(col: Column, i: nat, maxSize: nat): ArbiterStep
    requires CanTake(col, i)
  {
    ArbiterTakes(col.arbiter, i, col.cells[i].up[0], maxSize)
  }

  /** The arbiter takes requester i's message. */
  ghost function Taken(col: Column, i: nat, maxSize: nat): Column
    requires CanTake(col, i)
  {
    var r := Ruling(col, i, maxSize);
    Told(WithCell(col, i, col.cells[i].(up := col.cells[i].up[1..])).(arbiter := r.arbiter), r.answer)
  }

  predicate HasDown(col: Column, i: nat) { i < |col.cells| && col.cells[i].down != [] }

  /** Requester i takes the arbiter's LOCKED or FAILED. */
  function Heard(col: Column, i: nat): Column
    requires HasDown(col, i)
  {
    var c := col.cells[i];
    WithCell(col, i, c.(down := c.down[1..], standing := if c.down[0].Locked? then GotLocked else GotFailed))
  }

  function Staged(col: Column, i: nat, stage: Stage): Column
    requires i < |col.cells|
  {
    WithCell(col, i, col.cells[i].(stage := stage))
  }

  function Yielded(col: Column, i: nat): Column
    requires HasDown(col, i)
  {
    var c := col.cells[i];
    WithCell(col, i, Cell(c.up + [Relinquish], c.down[1..], GotFailed, Unread))
  }

  function Asked(col: Column, i: nat, r: Req): Column
    requires i < |col.cells|
  {
    var c := col.cells[i];
    WithCell(col, i, c.(up := c.up + [Request(r)], standing := AwaitingReply))
  }

  function Left(col: Column, i: nat): Column
    requires i < |col.cells|
  {
    var c := col.cells[i];
    WithCell(col, i, c.(up := c.up + [Release], standing := NoReply))
  }

  // ---------------------------------------------------------------- and that they do no more

  /** s' differs from s in column m only, which is col. */
  ghost predicate OnlyColumn(cfg: Config, s: State, s': State, m: nat, col: Column) {
    && Shaped(cfg, s) && Shaped(cfg, s') && m < |cfg.quorums|
    && s'.phase == s.phase
    && ColumnOf(cfg, s', m) == col
    && forall j: nat :: j < |cfg.quorums| && j != m ==> ColumnOf(cfg, s', j) == ColumnOf(cfg, s, j)
  }

  ghost predicate SameNumbers(s: State, s': State) {
    |s.clients| == |s'.clients| &&
    forall k :: 0 <= k < |s.clients| ==> s'.clients[k].hgstSeq == s.clients[k].hgstSeq
  }

  lemma SameColumn(cfg: Config, s: State, s': State, j: nat)
    requires Shaped(cfg, s) && Shaped(cfg, s') && j < |cfg.quorums|
    requires s.arbiters[j] == s'.arbiters[j]
    requires forall k: nat :: k < |cfg.quorums| ==> CellOf(cfg, s, k, j) == CellOf(cfg, s', k, j)
    ensures ColumnOf(cfg, s, j) == ColumnOf(cfg, s', j)
  {
  }

  lemma RuledElsewhere(cfg: Config, s: State, i: nat, m: nat, r: ArbiterStep, j: nat)
    requires Shaped(cfg, s) && i < |cfg.quorums| && m < |cfg.quorums| && s.up[i][m] != []
    requires ArbiterShape(r.arbiter, |cfg.quorums|) && j < |cfg.quorums| && j != m
    ensures Shaped(cfg, Arbitrate(s, i, m, r))
    ensures ColumnOf(cfg, Arbitrate(s, i, m, r), j) == ColumnOf(cfg, s, j)
  {
    ArbitrateShaped(cfg, s, i, m, r);
    var s' := Arbitrate(s, i, m, r);
    forall k: nat | k < |cfg.quorums| ensures CellOf(cfg, s', k, j) == CellOf(cfg, s, k, j) {
      assert s'.up[k][j] == s.up[k][j] && s'.down[j][k] == s.down[j][k];
    }
    SameColumn(cfg, s, s', j);
  }

  lemma RuledHere(cfg: Config, s: State, i: nat, m: nat, r: ArbiterStep)
    requires Shaped(cfg, s) && i < |cfg.quorums| && m < |cfg.quorums| && s.up[i][m] != []
    requires ArbiterShape(r.arbiter, |cfg.quorums|)
    ensures Shaped(cfg, Arbitrate(s, i, m, r))
    ensures var col := ColumnOf(cfg, s, m);
      ColumnOf(cfg, Arbitrate(s, i, m, r), m)
        == Told(WithCell(col, i, col.cells[i].(up := col.cells[i].up[1..])).(arbiter := r.arbiter), r.answer)
  {
    ArbitrateShaped(cfg, s, i, m, r);
    var s', col := Arbitrate(s, i, m, r), ColumnOf(cfg, s, m);
    var col' := Told(WithCell(col, i, col.cells[i].(up := col.cells[i].up[1..])).(arbiter := r.arbiter), r.answer);
    assert ColumnOf(cfg, s', m).cells == col'.cells;
  }

  lemma TakesColumn(cfg: Config, s: State, i: nat, m: nat)
    requires Shaped(cfg, s) && Enabled(cfg, s, AtArbiter(i, m))
    requires ArbiterShape(Ruling(ColumnOf(cfg, s, m), i, cfg.maxSize).arbiter, |cfg.quorums|)
    ensures var s' := Apply(cfg, s, AtArbiter(i, m));
      && OnlyColumn(cfg, s, s', m, Taken(ColumnOf(cfg, s, m), i, cfg.maxSize))
      && (forall k :: 0 <= k < |cfg.quorums| && k != m ==> s'.clients[k].hgstSeq == s.clients[k].hgstSeq)
      && s'.clients[m].hgstSeq == (if s.up[i][m][0].Request? then Max(s.clients[m].hgstSeq, s.up[i][m][0].r.timestamp)
                                   else s.clients[m].hgstSeq)
  {
    var r := Ruling(ColumnOf(cfg, s, m), i, cfg.maxSize);
    RuledHere(cfg, s, i, m, r);
    forall j: nat | j < |cfg.quorums| && j != m
      ensures ColumnOf(cfg, Arbitrate(s, i, m, r), j) == ColumnOf(cfg, s, j)
    {
      RuledElsewhere(cfg, s, i, m, r, j);
    }
    assert Apply(cfg, s, AtArbiter(i, m)) == Arbitrate(s, i, m, r);
  }

  /** Requester i's record of arbiter m is now as in c, and nothing else about the requesters has changed. */
  ghost predicate OnlyCell(cfg: Config, s: State, s': State, i: nat, m: nat, c: Cell) {
    && Shaped(cfg, s) && Shaped(cfg, s') && i < |cfg.quorums| && m < |cfg.quorums|
    && s'.phase == s.phase && s'.arbiters == s.arbiters
    && CellOf(cfg, s', i, m) == c
    && forall k: nat, j: nat :: k < |cfg.quorums| && j < |cfg.quorums| && (k != i || j != m) ==>
         CellOf(cfg, s', k, j) == CellOf(cfg, s, k, j)
  }

  lemma CellColumn(cfg: Config, s: State, s': State, i: nat, m: nat, c: Cell)
    requires OnlyCell(cfg, s, s', i, m, c)
    ensures OnlyColumn(cfg, s, s', m, WithCell(ColumnOf(cfg, s, m), i, c))
  {
    var col := WithCell(ColumnOf(cfg, s, m), i, c);
    forall k: nat | k < |cfg.quorums| ensures ColumnOf(cfg, s', m).cells[k] == col.cells[k] {
      assert k != i ==> CellOf(cfg, s', k, m) == CellOf(cfg, s, k, m);
    }
    assert ColumnOf(cfg, s', m).cells == col.cells;
    forall j: nat | j < |cfg.quorums| && j != m ensures ColumnOf(cfg, s', j) == ColumnOf(cfg, s, j) {
      SameColumn(cfg, s, s', j);
    }
  }

  lemma HearsCell(cfg: Config, s: State, i: nat, m: nat, what: Standing, up: seq<seq<seq<Up>>>)
    requires Shaped(cfg, s) && i < |cfg.quorums| && m < |cfg.quorums| && s.down[m][i] != [] && m in cfg.quorums[i]
    requires up == s.up || up == PostUp(s.up, i, m, Relinquish)
    ensures OnlyCell(cfg, s, Hear(s, i, m, Recorded(s.clients[i], m, what), up), i, m,
                     CellOf(cfg, s, i, m).(up := up[i][m], down := s.down[m][i][1..], standing := what))
  {
    var s' := Hear(s, i, m, Recorded(s.clients[i], m, what), up);
    assert s'.clients[i].replies.Keys == cfg.quorums[i];
    forall k: nat, j: nat | k < |cfg.quorums| && j < |cfg.quorums| && (k != i || j != m)
      ensures Shaped(cfg, s') && CellOf(cfg, s', k, j) == CellOf(cfg, s, k, j)
    {
      assert s'.up[k][j] == s.up[k][j] && s'.down[j][k] == s.down[j][k];
    }
  }

  lemma HeardColumn(cfg: Config, s: State, i: nat, m: nat)
    requires Shaped(cfg, s) && Enabled(cfg, s, AtClient(i, m)) && m in cfg.quorums[i]
    ensures var s' := Apply(cfg, s, AtClient(i, m));
      OnlyColumn(cfg, s, s', m, Heard(ColumnOf(cfg, s, m), i)) && SameNumbers(s, s')
  {
    var what := if s.down[m][i][0].Locked? then GotLocked else GotFailed;
    HearsCell(cfg, s, i, m, what, s.up);
    var c := CellOf(cfg, s, i, m).(up := s.up[i][m], down := s.down[m][i][1..], standing := what);
    CellColumn(cfg, s, Apply(cfg, s, AtClient(i, m)), i, m, c);
  }

  lemma StagedCell(cfg: Config, s: State, i: nat, m: nat, stage: Stage)
    requires Shaped(cfg, s) && i < |cfg.quorums| && m < |cfg.quorums|
    ensures OnlyCell(cfg, s, SetStage(s, i, m, stage), i, m, CellOf(cfg, s, i, m).(stage := stage))
  {
  }

  /** The requester finds that it can determine the result of an INQUIRE, or decides to give the lock back. */
  lemma StagedColumn(cfg: Config, s: State, e: Event)
    requires Shaped(cfg, s) && Enabled(cfg, s, e) && (e.Determine? || e.Look?)
    requires SomeFailed(s.clients[e.i], cfg.quorums[e.i])
    ensures var s' := Apply(cfg, s, e);
      && OnlyColumn(cfg, s, s', e.j, Staged(ColumnOf(cfg, s, e.j), e.i, if e.Look? then Yielding else Determined))
      && SameNumbers(s, s')
  {
    var stage := if e.Look? then Yielding else Determined;
    StagedCell(cfg, s, e.i, e.j, stage);
    CellColumn(cfg, s, Apply(cfg, s, e), e.i, e.j, CellOf(cfg, s, e.i, e.j).(stage := stage));
  }

  lemma YieldedColumn(cfg: Config, s: State, i: nat, m: nat)
    requires Shaped(cfg, s) && Enabled(cfg, s, Yield(i, m)) && m in cfg.quorums[i]
    ensures var s' := Apply(cfg, s, Yield(i, m));
      OnlyColumn(cfg, s, s', m, Yielded(ColumnOf(cfg, s, m), i)) && SameNumbers(s, s')
  {
    var up := PostUp(s.up, i, m, Relinquish);
    var heard := Hear(s, i, m, Recorded(s.clients[i], m, GotFailed), up);
    HearsCell(cfg, s, i, m, GotFailed, up);
    var c := CellOf(cfg, s, i, m).(up := up[i][m], down := s.down[m][i][1..], standing := GotFailed);
    StagedCell(cfg, heard, i, m, Unread);
    assert OnlyCell(cfg, s, SetStage(heard, i, m, Unread), i, m, c.(stage := Unread));
    CellColumn(cfg, s, SetStage(heard, i, m, Unread), i, m, c.(stage := Unread));
  }

  // ---------------------------------------------------------------- a requester's own steps

  lemma AskedColumn(cfg: Config, s: State, i: nat, m: nat)
    requires Shaped(cfg, s) && Enabled(cfg, s, Ask(i)) && m < |cfg.quorums|
    ensures var s' := Apply(cfg, s, Ask(i));
      && Shaped(cfg, s') && s'.phase == s.phase[i := Waiting] && SameNumbers(s, s')
      && ColumnOf(cfg, s', m) == if m in cfg.quorums[i]
           then Asked(ColumnOf(cfg, s, m), i, Req(s.clients[i].hgstSeq + 1, i)) else ColumnOf(cfg, s, m)
  {
    var s' := Apply(cfg, s, Ask(i));
    assert s'.clients[i].replies.Keys == cfg.quorums[i];
    var col := ColumnOf(cfg, s, m);
    var col' := if m in cfg.quorums[i] then Asked(col, i, Req(s.clients[i].hgstSeq + 1, i)) else col;
    assert ColumnOf(cfg, s', m).cells == col'.cells;
  }

  lemma LeftColumn(cfg: Config, s: State, i: nat, m: nat)
    requires Shaped(cfg, s) && Enabled(cfg, s, Leave(i)) && m < |cfg.quorums|
    ensures var s' := Apply(cfg, s, Leave(i));
      && Shaped(cfg, s') && s'.phase == s.phase[i := Outside] && SameNumbers(s, s')
      && ColumnOf(cfg, s', m) == if m in cfg.quorums[i] then Left(ColumnOf(cfg, s, m), i) else ColumnOf(cfg, s, m)
  {
    var s' := Apply(cfg, s, Leave(i));
    assert s'.clients[i].replies.Keys == cfg.quorums[i];
    var col := ColumnOf(cfg, s, m);
    var col' := if m in cfg.quorums[i] then Left(col, i) else col;
    assert ColumnOf(cfg, s', m).cells == col'.cells;
  }

  lemma EnteredColumn(cfg: Config, s: State, i: nat, m: nat)
    requires Shaped(cfg, s) && Enabled(cfg, s, Enter(i)) && m < |cfg.quorums|
    ensures var s' := Apply(cfg, s, Enter(i));
      && Shaped(cfg, s') && s'.phase == s.phase[i := Inside] && SameNumbers(s, s')
      && ColumnOf(cfg, s', m) == ColumnOf(cfg, s, m)
  {
    SameColumn(cfg, s, Apply(cfg, s, Enter(i)), m);
  }
}

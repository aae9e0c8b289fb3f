/**
 The columns of the run in which a RELINQUISH comes too late.  Client p has left, but an arbiter it shares
 with client y has not heard of it; client e, which may be p, and then client y ask.  Arbiter x, which e and
 y share, grants y's request and then asks y to give the lock back for e's.
*/
module MaekawaLateColumns {
  import opened MessageQueue
  import opened MaekawaNode
  import opened MaekawaArbiter
  import opened MaekawaSystem
  import opened MaekawaColumns
  import opened MaekawaRound

  /** Three clients, the first and the second perhaps the same, the arbiter x, and their requests. */
  datatype Roles = Roles(p: nat, e: nat, y: nat, x: nat, rp: Req, re: Req, ry: Req)

  predicate Cast(n: nat, r: Roles) {
    && r.p < n && r.e < n && r.y < n && r.x < n && r.p != r.y && r.e != r.y
    && r.rp.sender == r.p && r.re.sender == r.e && r.ry.sender == r.y
    && Later(r.ry, r.rp) && Later(r.ry, r.re)
  }

  /** What an arbiter has to do with the three: p still holds it, e's quorum has it, y's quorum has it. */
  datatype Part = Part(held: bool, e: bool, y: bool)

  function Trio(n: nat, r: Roles, arbiter: Arbiter, cp: Cell, ce: Cell, cy: Cell): Column
    requires r.p < n && r.e < n && r.y < n
  {
    Column(arbiter, Blanks(n)[r.p := cp][r.e := ce][r.y := cy])
  }

  function When<T>(b: bool, m: T): seq<T> { if b then [m] else [] }

  function Standing0(b: bool): Standing { if b then AwaitingReply else NoReply }

  function CellP(held: bool): Cell { Cell(When(held, Release), [], NoReply, Unread) }

  function CellE(r: Roles, held: bool, asks: bool): Cell {
    Cell(When(held && r.p == r.e, Release) + When(asks, Request(r.re)), [], Standing0(asks), Unread)
  }

  /** Everybody has asked. */
  function Column1(n: nat, r: Roles, q: Part): Column
    requires Cast(n, r)
  {
    Trio(n, r, if q.held then HeldArbiter(n, r.rp) else FreeArbiter(n), CellP(q.held), CellE(r, q.held, q.e),
         Cell(When(q.y, Request(r.ry)), [], Standing0(q.y), Unread))
  }

  /** The arbiter has treated y's REQUEST, */
  function Column2(n: nat, r: Roles, q: Part): Column
    requires Cast(n, r)
  {
    Trio(n, r,
         if q.y then (if q.held then Contended(n, r.rp, r.ry) else HeldArbiter(n, r.ry))
         else if q.held then HeldArbiter(n, r.rp) else FreeArbiter(n),
         CellP(q.held), CellE(r, q.held, q.e),
         Cell([], When(q.y, if q.held then Failed else Locked), Standing0(q.y), Unread))
  }

  /** and p's RELEASE, */
  function Column3(n: nat, r: Roles, q: Part): Column
    requires Cast(n, r)
  {
    Trio(n, r, if q.y then HeldArbiter(n, r.ry) else FreeArbiter(n), BLANK, CellE(r, false, q.e),
         Cell([], When(q.y && q.held, Failed) + When(q.y, Locked), Standing0(q.y), Unread))
  }

  function AskedToYield(n: nat, r: Roles): Arbiter
    requires Cast(n, r)
  {
    Contended(n, r.ry, r.re).(inquireReplied := AllReplied(n)[r.y := false])
  }

  function Arbiter4(n: nat, r: Roles, q: Part): Arbiter
    requires Cast(n, r)
  {
    if q.y then (if q.e then AskedToYield(n, r) else HeldArbiter(n, r.ry))
    else if q.e then HeldArbiter(n, r.re) else FreeArbiter(n)
  }

  /** and e's REQUEST. */
  function Column4(n: nat, r: Roles, q: Part): Column
    requires Cast(n, r)
  {
    Trio(n, r, Arbiter4(n, r, q), BLANK, Cell([], When(q.e && !q.y, Locked), Standing0(q.e), Unread),
         Cell([], When(q.y && q.held, Failed) + When(q.y, Locked) + When(q.y && q.e, Inquire), Standing0(q.y), Unread))
  }

  function GotE(q: Part): Cell {
    Cell([], [], if q.e then (if q.y then AwaitingReply else GotLocked) else NoReply, Unread)
  }

  /** The clients have read one message each. */
  function Column5(n: nat, r: Roles, q: Part): Column
    requires Cast(n, r)
  {
    Trio(n, r, Arbiter4(n, r, q), BLANK, GotE(q),
         Cell([], When(q.y && q.held, Locked) + When(q.y && q.e, Inquire),
              if q.y then (if q.held then GotFailed else GotLocked) else NoReply, Unread))
  }

  /** y has read the LOCKED that followed a FAILED; stage is how far it has come with the INQUIRE. */
  function Column6(n: nat, r: Roles, q: Part, stage: Stage): Column
    requires Cast(n, r)
  {
    Trio(n, r, Arbiter4(n, r, q), BLANK, GotE(q),
         Cell([], When(q.y && q.e, Inquire), if q.y then GotLocked else NoReply, stage))
  }

  /** y has given the lock back, the arbiter has taken it, and e has got it. */
  function Column7(n: nat, r: Roles): Column
    requires Cast(n, r)
  {
    Trio(n, r, AskedToYield(n, r), BLANK, Cell([], [], AwaitingReply, Unread),
         Cell([Relinquish], [], GotFailed, Unread))
  }

  function Column8(n: nat, r: Roles): Column
    requires Cast(n, r)
  {
    Trio(n, r, Contended(n, r.re, r.ry), BLANK, Cell([], [Locked], AwaitingReply, Unread),
         Cell([], [], GotFailed, Unread))
  }

  function Column9(n: nat, r: Roles): Column
    requires Cast(n, r)
  {
    Trio(n, r, Contended(n, r.re, r.ry), BLANK, Cell([], [], GotLocked, Unread), Cell([], [], GotFailed, Unread))
  }

  // ---------------------------------------------------------------- from one to the next

  /** The arbiter takes i's message, which turns the column into col'. */
  ghost predicate Turns(col: Column, i: nat, maxSize: nat, col': Column) {
    && CanTake(col, i)
    && ArbiterShape(Ruling(col, i, maxSize).arbiter, |col.cells|)
    && Taken(col, i, maxSize) == col'
  }

  ghost predicate SameCell(c: Cell, d: Cell) {
    c.up == d.up && c.down == d.down && c.standing == d.standing && c.stage == d.stage
  }

  lemma SameColumns(c: Column, d: Column)
    requires c.arbiter == d.arbiter && |c.cells| == |d.cells|
    requires forall k :: 0 <= k < |c.cells| ==> SameCell(c.cells[k], d.cells[k])
    ensures c == d
  {
    assert forall k :: 0 <= k < |c.cells| ==> c.cells[k] == d.cells[k];
    assert c.cells == d.cells;
  }

  /** Only the three clients' cells need to be compared. */
  lemma SameTrio(n: nat, r: Roles, c: Column, d: Column)
    requires Cast(n, r) && c.arbiter == d.arbiter && |c.cells| == |d.cells| == n
    requires forall k :: 0 <= k < n && k != r.p && k != r.e && k != r.y ==> c.cells[k] == BLANK == d.cells[k]
    requires SameCell(c.cells[r.p], d.cells[r.p]) && SameCell(c.cells[r.e], d.cells[r.e])
    requires SameCell(c.cells[r.y], d.cells[r.y])
    ensures c == d
  {
    SameColumns(c, d);
  }

  lemma TakesY(n: nat, r: Roles, q: Part, maxSize: nat)
    requires Cast(n, r) && maxSize > 0
    ensures if q.y then Turns(Column1(n, r, q), r.y, maxSize, Column2(n, r, q))
            else Column1(n, r, q) == Column2(n, r, q)
  {
    if q.y {
      if q.held { Refuses(n, r.y, r.rp, r.ry, maxSize); } else { Grants(n, r.y, r.ry, maxSize); }
      SameTrio(n, r, Taken(Column1(n, r, q), r.y, maxSize), Column2(n, r, q));
    }
  }

  lemma TakesPFromY(n: nat, r: Roles, q: Part, maxSize: nat)
    requires Cast(n, r) && maxSize > 0 && q.held && q.y
    ensures Turns(Column2(n, r, q), r.p, maxSize, Column3(n, r, q))
  {
    HandsOver(n, r.p, r.rp, r.ry, maxSize);
    var col, ruling := Column2(n, r, q), ArbiterStep(HeldArbiter(n, r.ry), To(r.y, Locked));
    assert Ruling(col, r.p, maxSize) == ruling;
    assert col.cells[r.p].up[1..] == (if r.p == r.e then When(q.e, Request(r.re)) else []);
    SameTrio(n, r, Taken(col, r.p, maxSize), Column3(n, r, q));
  }

  lemma TakesPAlone(n: nat, r: Roles, q: Part, maxSize: nat)
    requires Cast(n, r) && maxSize > 0 && q.held && !q.y
    ensures Turns(Column2(n, r, q), r.p, maxSize, Column3(n, r, q))
  {
    Frees(n, r.p, r.rp, maxSize);
    SameTrio(n, r, Taken(Column2(n, r, q), r.p, maxSize), Column3(n, r, q));
  }

  lemma TakesP(n: nat, r: Roles, q: Part, maxSize: nat)
    requires Cast(n, r) && maxSize > 0
    ensures if q.held then Turns(Column2(n, r, q), r.p, maxSize, Column3(n, r, q))
            else Column2(n, r, q) == Column3(n, r, q)
  {
    if !q.held {
      SameTrio(n, r, Column2(n, r, q), Column3(n, r, q));
    } else if q.y {
      TakesPFromY(n, r, q, maxSize);
    } else {
      TakesPAlone(n, r, q, maxSize);
    }
  }

  lemma TakesEFromY(n: nat, r: Roles, q: Part, maxSize: nat)
    requires Cast(n, r) && maxSize > 0 && q.e && q.y
    ensures Turns(Column3(n, r, q), r.e, maxSize, Column4(n, r, q))
  {
    Inquires(n, r.e, r.ry, r.re, maxSize);
    SameTrio(n, r, Taken(Column3(n, r, q), r.e, maxSize), Column4(n, r, q));
  }

  lemma TakesEAlone(n: nat, r: Roles, q: Part, maxSize: nat)
    requires Cast(n, r) && maxSize > 0 && q.e && !q.y
    ensures Turns(Column3(n, r, q), r.e, maxSize, Column4(n, r, q))
  {
    Grants(n, r.e, r.re, maxSize);
    SameTrio(n, r, Taken(Column3(n, r, q), r.e, maxSize), Column4(n, r, q));
  }

  lemma TakesE(n: nat, r: Roles, q: Part, maxSize: nat)
    requires Cast(n, r) && maxSize > 0
    ensures if q.e then Turns(Column3(n, r, q), r.e, maxSize, Column4(n, r, q))
            else Column3(n, r, q) == Column4(n, r, q)
  {
    if !q.e {
      SameTrio(n, r, Column3(n, r, q), Column4(n, r, q));
    } else if q.y {
      TakesEFromY(n, r, q, maxSize);
    } else {
      TakesEAlone(n, r, q, maxSize);
    }
  }

  /** Client i reads a LOCKED or FAILED, which turns the column into col'. */
  predicate Reads(col: Column, i: nat, col': Column) {
    HasDown(col, i) && !col.cells[i].down[0].Inquire? && Heard(col, i) == col'
  }

  lemma ReadsOnce(n: nat, r: Roles, q: Part)
    requires Cast(n, r)
    ensures if q.y then Reads(Column4(n, r, q), r.y, Column5(n, r, q))
            else if q.e then Reads(Column4(n, r, q), r.e, Column5(n, r, q))
            else Column4(n, r, q) == Column5(n, r, q)
  {
    SameTrio(n, r, if q.y then Heard(Column4(n, r, q), r.y) else if q.e then Heard(Column4(n, r, q), r.e)
                   else Column4(n, r, q), Column5(n, r, q));
  }

  lemma ReadsAgain(n: nat, r: Roles, q: Part)
    requires Cast(n, r)
    ensures if q.y && q.held then Reads(Column5(n, r, q), r.y, Column6(n, r, q, Unread))
            else Column5(n, r, q) == Column6(n, r, q, Unread)
  {
    SameTrio(n, r, if q.y && q.held then Heard(Column5(n, r, q), r.y) else Column5(n, r, q), Column6(n, r, q, Unread));
  }

  lemma Decides(n: nat, r: Roles, q: Part, stage: Stage, stage': Stage)
    requires Cast(n, r)
    ensures Staged(Column6(n, r, q, stage), r.y, stage') == Column6(n, r, q, stage')
  {
    SameTrio(n, r, Staged(Column6(n, r, q, stage), r.y, stage'), Column6(n, r, q, stage'));
  }

  lemma GivesBack(n: nat, r: Roles, q: Part)
    requires Cast(n, r) && q.y && q.e
    ensures HasDown(Column6(n, r, q, Yielding), r.y)
    ensures Yielded(Column6(n, r, q, Yielding), r.y) == Column7(n, r)
  {
    SameTrio(n, r, Yielded(Column6(n, r, q, Yielding), r.y), Column7(n, r));
  }

  lemma TakesBack(n: nat, r: Roles, maxSize: nat)
    requires Cast(n, r) && maxSize > 0
    ensures Turns(Column7(n, r), r.y, maxSize, Column8(n, r))
  {
    Swaps(n, r.y, r.ry, r.re, maxSize);
    SameTrio(n, r, Taken(Column7(n, r), r.y, maxSize), Column8(n, r));
  }

  lemma ReadsLast(n: nat, r: Roles)
    requires Cast(n, r)
    ensures Reads(Column8(n, r), r.e, Column9(n, r))
  {
    SameTrio(n, r, Heard(Column8(n, r), r.e), Column9(n, r));
  }
}

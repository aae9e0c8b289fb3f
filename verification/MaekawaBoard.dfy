/**
 A copy of the system for two clients with the same quorum of two, made of plain values, so that
 Dafny can compute with it: `PlayIsRun` proves that what it computes are runs of the system.
*/
module MaekawaBoard {
  import opened Numbers
  import opened MessageQueue
  import opened MaekawaNode
  import opened MaekawaSystem
  import opened MaekawaOrder

  const Q := Config([{0, 1}, {0, 1}], 100)

  datatype List<T> = Nil | Cons(head: T, tail: List<T>)

  function Snoc<T>(c: List<T>, x: T): List<T> {
    if c.Nil? then Cons(x, Nil) else Cons(c.head, Snoc(c.tail, x))
  }

  function Seq<T>(c: List<T>): seq<T> {
    if c.Nil? then [] else [c.head] + Seq(c.tail)
  }

  lemma {:induction false} SeqOfSnoc<T>(c: List<T>, x: T)
    ensures Seq(Snoc(c, x)) == Seq(c) + [x]
  {
    if c.Cons? {
      SeqOfSnoc(c.tail, x);
    }
  }

  /** One thing for client 0 and one for client 1. */
  datatype Two<T> = Two(zero: T, one: T) {
    function At(i: nat): T { if i == 0 then zero else one }
    function With(i: nat, x: T): Two<T> { if i == 0 then Two(x, one) else Two(zero, x) }
    function Row(): seq<T> { [zero, one] }
  }

  datatype Asker = Asker(ourSeq: nat, hgstSeq: nat, first: Standing, second: Standing) {
    function Recorded(j: nat, what: Standing): Asker {
      if j == 0 then this.(first := what) else this.(second := what)
    }
    function Full(): Requester { Requester(ourSeq, hgstSeq, map[0 := first, 1 := second]) }
    predicate Failed() { first == GotFailed || second == GotFailed }
    predicate Locked() { first == second == GotLocked }
  }

  /** One thing for each ordered pair of clients. */
  datatype Four<T> = Four(a: T, b: T, c: T, d: T) {
    function At(i: nat, j: nat): T {
      if i == 0 then (if j == 0 then a else b) else (if j == 0 then c else d)
    }
    function With(i: nat, j: nat, x: T): Four<T> {
      if i == 0 then (if j == 0 then this.(a := x) else this.(b := x))
      else (if j == 0 then this.(c := x) else this.(d := x))
    }
    function Grid(): seq<seq<T>> { [[a, b], [c, d]] }
  }

  datatype Queued = Nobody | One(r: Req)

  /** An arbiter with one waiting request at most. */
  datatype Judge = Judge(lock: Lock, queue: Queued, first: bool, second: bool) {
    function Full(): Arbiter {
      Arbiter(lock, if queue.Nobody? then multiset{} else multiset{queue.r}, [first, second])
    }
    function Replied(i: nat): bool { if i == 0 then first else second }
    function Flagged(i: nat, b: bool): Judge { if i == 0 then this.(first := b) else this.(second := b) }
  }

  datatype Board = Board(
    phase: Two<Phase>, askers: Two<Asker>, judges: Two<Judge>,
    up: Four<List<Up>>, down: Four<List<Down>>, stages: Four<Stage>, order: Four<List<Side>>)

  function Channels<T>(g: Four<List<T>>): seq<seq<seq<T>>> {
    [[Seq(g.a), Seq(g.b)], [Seq(g.c), Seq(g.d)]]
  }

  function Full(b: Board): State {
    State(b.phase.Row(), Askers(b.askers), Judges(b.judges), Channels(b.up), Channels(b.down), b.stages.Grid())
  }

  function Askers(c: Two<Asker>): seq<Requester> { [c.zero.Full(), c.one.Full()] }

  function Judges(a: Two<Judge>): seq<Arbiter> { [a.zero.Full(), a.one.Full()] }

  // ---------------------------------------------------------------- the board and the state agree

  lemma RowWith<T>(t: Two<T>, i: nat, x: T)
    requires i < 2
    ensures t.With(i, x).Row() == t.Row()[i := x] && t.At(i) == t.Row()[i]
  {
  }

  lemma AskersWith(t: Two<Asker>, i: nat, x: Asker)
    requires i < 2
    ensures Askers(t.With(i, x)) == Askers(t)[i := x.Full()] && t.At(i).Full() == Askers(t)[i]
  {
  }

  lemma JudgesWith(t: Two<Judge>, i: nat, x: Judge)
    requires i < 2
    ensures Judges(t.With(i, x)) == Judges(t)[i := x.Full()] && t.At(i).Full() == Judges(t)[i]
  {
  }

  lemma GridWith<T>(g: Four<T>, i: nat, j: nat, x: T)
    requires i < 2 && j < 2
    ensures g.With(i, j, x).Grid() == g.Grid()[i := g.Grid()[i][j := x]] && g.At(i, j) == g.Grid()[i][j]
  {
    assert g.With(i, j, x).Grid()[i] == g.Grid()[i][j := x];
  }

  lemma ChannelsWith<T>(g: Four<List<T>>, i: nat, j: nat, x: List<T>)
    requires i < 2 && j < 2
    ensures Channels(g.With(i, j, x)) == Channels(g)[i := Channels(g)[i][j := Seq(x)]]
    ensures Seq(g.At(i, j)) == Channels(g)[i][j]
  {
    assert Channels(g.With(i, j, x))[i] == Channels(g)[i][j := Seq(x)];
  }

  lemma AskerRecorded(c: Asker, j: nat, what: Standing)
    requires j < 2
    ensures c.Recorded(j, what).Full() == Recorded(c.Full(), j, what)
  {
    assert c.Recorded(j, what).Full().replies == c.Full().replies[j := what];
  }

  function Asking(c: Asker): Asker { Asker(c.hgstSeq + 1, c.hgstSeq, AwaitingReply, AwaitingReply) }

  lemma AskerAsks(c: Asker)
    ensures Asking(c).Full() == AskStep(c.Full(), {0, 1})
  {
    assert Asking(c).Full().replies == c.Full().replies + ForAll({0, 1}, AwaitingReply);
  }

  lemma AskerStandings(c: Asker)
    ensures c.Failed() <==> SomeFailed(c.Full(), {0, 1})
    ensures c.Locked() <==> AllLocked(c.Full(), {0, 1})
  {
    assert 0 in c.Full().replies && 1 in c.Full().replies;
  }

  // ---------------------------------------------------------------- steps on the board

  datatype Ruling = Ruling(judge: Judge, answer: Answer) | NoRuling

  /** What arbiter j does with client i's message; NoRuling where a second request would have to wait. */
  function Rule(a: Judge, i: nat, m: Up): Ruling {
    match m
    case Request(r) =>
      if a.lock.Free? then Ruling(a.(lock := Held(r)), To(r.sender, Locked))
      else if a.queue.One? || !(0 <= a.lock.owner.sender < 2) then NoRuling
      else
        var h := a.lock.owner;
        var waits := a.(queue := One(r));
        if Later(r, h) then Ruling(waits, To(r.sender, Failed))
        else if a.Replied(h.sender) then Ruling(waits.Flagged(h.sender, false), To(h.sender, Inquire))
        else Ruling(waits, Nothing)
    case Relinquish =>
      if a.lock.Free? || a.queue.Nobody? then NoRuling
      else Ruling(Judge(Held(a.queue.r), One(a.lock.owner), a.first, a.second).Flagged(i, true),
                  To(a.queue.r.sender, Locked))
    case Release =>
      if a.lock.Free? then NoRuling
      else if a.queue.Nobody? then Ruling(a.(lock := Free).Flagged(i, true), Nothing)
      else Ruling(a.(lock := Held(a.queue.r), queue := Nobody).Flagged(i, true), To(a.queue.r.sender, Locked))
  }

  lemma Flags(a: Judge, i: nat, b: bool)
    requires i < 2
    ensures a.Flagged(i, b).Full().inquireReplied == a.Full().inquireReplied[i := b]
    ensures a.Replied(i) == a.Full().inquireReplied[i]
  {
  }

  ghost predicate Agrees(r: Ruling, s: ArbiterStep) {
    r.Ruling? ==> s == ArbiterStep(r.judge.Full(), r.answer)
  }

  predicate OwnerIsClient(a: Judge) { a.lock.Held? ==> 0 <= a.lock.owner.sender < 2 }

  lemma RuleRequest(a: Judge, i: nat, r: Req)
    requires i < 2 && OwnerIsClient(a)
    ensures Agrees(Rule(a, i, Request(r)), TreatRequestStep(a.Full(), r, Q.maxSize))
  {
    if a.lock.Held? && a.queue.Nobody? {
      RuleQueued(a, i, r);
    }
  }

  lemma RuleQueued(a: Judge, i: nat, r: Req)
    requires i < 2 && OwnerIsClient(a) && a.lock.Held? && a.queue.Nobody?
    ensures Agrees(Rule(a, i, Request(r)), TreatRequestStep(a.Full(), r, Q.maxSize))
  {
    LeastOfOne(r);
    var q := Pushed(a.Full().queue, r, Q.maxSize);
    assert q == multiset{r};
    var h: nat := a.lock.owner.sender;
    Flags(a, h, false);
    Flags(a.(queue := One(r)), h, false);
  }

  lemma RuleRelinquish(a: Judge, i: nat)
    requires i < 2 && a.lock.Held? && a.queue.One?
    ensures Agrees(Rule(a, i, Relinquish), TreatRelinquishStep(a.Full(), i, Q.maxSize))
  {
    LeastOfOne(a.queue.r);
    Flags(Judge(Held(a.queue.r), One(a.lock.owner), a.first, a.second), i, true);
    assert Pushed(multiset{a.queue.r} - multiset{a.queue.r}, a.lock.owner, Q.maxSize) == multiset{a.lock.owner};
  }

  lemma RuleRelease(a: Judge, i: nat)
    requires i < 2
    ensures Agrees(Rule(a, i, Release), TreatReleaseStep(a.Full(), i))
  {
    Flags(a.(lock := Free), i, true);
    if a.queue.One? {
      LeastOfOne(a.queue.r);
      Flags(a.(lock := Held(a.queue.r), queue := Nobody), i, true);
      assert multiset{a.queue.r} - multiset{a.queue.r} == multiset{};
    }
  }

  lemma RuleIsTaking(a: Judge, i: nat, m: Up)
    requires i < 2 && OwnerIsClient(a)
    ensures Agrees(Rule(a, i, m), ArbiterTakes(a.Full(), i, m, Q.maxSize))
  {
    match m {
      case Request(r) => RuleRequest(a, i, r);
      case Relinquish => if a.lock.Held? && a.queue.One? { RuleRelinquish(a, i); }
      case Release => RuleRelease(a, i);
    }
  }

  /** The message for client k, if there is one, is put on arbiter j's channel. */
  function Sent(d: Four<List<Down>>, j: nat, answer: Answer): Four<List<Down>> {
    match answer
    case Nothing => d
    case To(k, m) => if 0 <= k < 2 then d.With(j, k, Snoc(d.At(j, k), m)) else d
  }

  datatype Next = Next(board: Board) | Stuck

  /** The oldest message from i to j is there, and is of that kind. */
  predicate Front(o: Four<List<Side>>, i: nat, j: nat, side: Side) {
    o.At(i, j).Cons? && o.At(i, j).head == side
  }

  /** The oldest message from i to j is finished. */
  function Dropped(o: Four<List<Side>>, i: nat, j: nat): Four<List<Side>> {
    if o.At(i, j).Nil? then o else o.With(i, j, o.At(i, j).tail)
  }

  function InLine(o: Four<List<Side>>, j: nat, answer: Answer): Four<List<Side>> {
    match answer
    case Nothing => o
    case To(k, _) => if 0 <= k < 2 then o.With(j, k, Snoc(o.At(j, k), FromArbiter)) else o
  }

  /** Arbiter j has ruled on client i's message. */
  function Ruled(b: Board, i: nat, j: nat, r: Ruling): Board
    requires b.up.At(i, j).Cons? && r.Ruling?
  {
    var m := b.up.At(i, j).head;
    var c := b.askers.At(j);
    b.(askers := b.askers.With(j, if m.Request? then c.(hgstSeq := Max(c.hgstSeq, m.r.timestamp)) else c),
       judges := b.judges.With(j, r.judge),
       up := b.up.With(i, j, b.up.At(i, j).tail),
       down := Sent(b.down, j, r.answer),
       order := InLine(Dropped(b.order, i, j), j, r.answer))
  }

  /** One step, where it is possible. */
  function Move(b: Board, e: Event): Next {
    match e
    case Ask(i) =>
      if i >= 2 || b.phase.At(i) != Outside then Stuck
      else
        Next(b.(phase := b.phase.With(i, Waiting),
                askers := b.askers.With(i, Asking(b.askers.At(i))),
                up := ToBoth(b.up, i, Request(Req(b.askers.At(i).hgstSeq + 1, i))),
                order := ToBoth(b.order, i, FromRequester)))
    case Enter(i) =>
      if i >= 2 || b.phase.At(i) != Waiting || !b.askers.At(i).Locked() then Stuck
      else Next(b.(phase := b.phase.With(i, Inside)))
    case Leave(i) =>
      if i >= 2 || b.phase.At(i) != Inside then Stuck
      else
        Next(b.(phase := b.phase.With(i, Outside),
                askers := b.askers.With(i, b.askers.At(i).(first := NoReply, second := NoReply)),
                up := ToBoth(b.up, i, Release), order := ToBoth(b.order, i, FromRequester)))
    case AtArbiter(i, j) =>
      if i >= 2 || j >= 2 || b.up.At(i, j).Nil? || !Front(b.order, i, j, FromRequester) then Stuck
      else
        var m := b.up.At(i, j).head;
        var r := Rule(b.judges.At(j), i, m);
        if r.NoRuling? || !OwnerIsClient(r.judge) then Stuck
        else Next(Ruled(b, i, j, r))
    case AtClient(i, j) =>
      if i >= 2 || j >= 2 || b.down.At(j, i).Nil? || !Front(b.order, j, i, FromArbiter) ||
         b.down.At(j, i).head.Inquire? then Stuck
      else
        var what := if b.down.At(j, i).head.Locked? then GotLocked else GotFailed;
        Next(b.(askers := b.askers.With(i, b.askers.At(i).Recorded(j, what)),
                down := b.down.With(j, i, b.down.At(j, i).tail), order := Dropped(b.order, j, i)))
    case Determine(i, j) =>
      if i >= 2 || j >= 2 || b.down.At(j, i).Nil? || !Front(b.order, j, i, FromArbiter) ||
         !b.down.At(j, i).head.Inquire? || !b.stages.At(i, j).Unread? ||
         !(b.askers.At(i).Failed() || b.askers.At(i).Locked()) then Stuck
      else Next(b.(stages := b.stages.With(i, j, Determined)))
    case Look(i, j) =>
      if i >= 2 || j >= 2 || b.down.At(j, i).Nil? || !Front(b.order, j, i, FromArbiter) ||
         !b.stages.At(i, j).Determined? then Stuck
      else if b.askers.At(i).Failed() then Next(b.(stages := b.stages.With(i, j, Yielding)))
      else
        Next(b.(down := b.down.With(j, i, b.down.At(j, i).tail), stages := b.stages.With(i, j, Unread),
                order := Dropped(b.order, j, i)))
    case Yield(i, j) =>
      if i >= 2 || j >= 2 || b.down.At(j, i).Nil? || !Front(b.order, j, i, FromArbiter) ||
         !b.stages.At(i, j).Yielding? then Stuck
      else
        Next(b.(askers := b.askers.With(i, b.askers.At(i).Recorded(j, GotFailed)),
                up := b.up.With(i, j, Snoc(b.up.At(i, j), Relinquish)),
                down := b.down.With(j, i, b.down.At(j, i).tail),
                stages := b.stages.With(i, j, Unread),
                order := Dropped(b.order, j, i).With(i, j, Snoc(Dropped(b.order, j, i).At(i, j), FromRequester))))
  }

  function ToBoth<T>(u: Four<List<T>>, i: nat, m: T): Four<List<T>> {
    u.With(i, 0, Snoc(u.At(i, 0), m)).With(i, 1, Snoc(u.At(i, 1), m))
  }

  predicate Sound(b: Board) { OwnerIsClient(b.judges.zero) && OwnerIsClient(b.judges.one) }

  lemma SoundIsShaped(b: Board)
    requires Sound(b)
    ensures Shaped(Q, Full(b))
  {
  }

  /** A step on the board is a step of the system. */
  ghost predicate Simulated(b: Board, e: Event) {
    Sound(b) && Move(b, e).Next? ==>
      && Sound(Move(b, e).board)
      && Shaped(Q, Full(b)) && Enabled(Q, Full(b), e)
      && Apply(Q, Full(b), e) == Full(Move(b, e).board)
  }

  lemma SimulatesEnter(b: Board, i: nat)
    ensures Simulated(b, Enter(i))
  {
    if Sound(b) && i < 2 {
      SoundIsShaped(b);
      RowWith(b.phase, i, Inside);
      AskersWith(b.askers, i, b.askers.At(i));
      AskerStandings(b.askers.At(i));
    }
  }

  lemma SimulatesToBoth(u: Four<List<Up>>, i: nat, m: Up)
    requires i < 2
    ensures Channels(ToBoth(u, i, m)) == PostAll(Channels(u), i, {0, 1}, m)
  {
    SeqOfSnoc(u.At(i, 0), m);
    SeqOfSnoc(u.At(i, 1), m);
    var u' := u.With(i, 0, Snoc(u.At(i, 0), m));
    ChannelsWith(u, i, 0, Snoc(u.At(i, 0), m));
    ChannelsWith(u', i, 1, Snoc(u'.At(i, 1), m));
    assert u'.At(i, 1) == u.At(i, 1);
    assert Channels(ToBoth(u, i, m))[i] == PostAll(Channels(u), i, {0, 1}, m)[i];
  }

  lemma SimulatesAsk(b: Board, i: nat)
    ensures Simulated(b, Ask(i))
  {
    if Sound(b) && i < 2 {
      SoundIsShaped(b);
      RowWith(b.phase, i, Waiting);
      AskerAsks(b.askers.At(i));
      AskersWith(b.askers, i, Asking(b.askers.At(i)));
      SimulatesToBoth(b.up, i, Request(Req(b.askers.At(i).hgstSeq + 1, i)));
    }
  }

  lemma SimulatesLeave(b: Board, i: nat)
    ensures Simulated(b, Leave(i))
  {
    if Sound(b) && i < 2 {
      SoundIsShaped(b);
      RowWith(b.phase, i, Outside);
      var c := b.askers.At(i);
      var c' := c.(first := NoReply, second := NoReply);
      AskersWith(b.askers, i, c');
      assert c'.Full().replies == c.Full().replies + ForAll({0, 1}, NoReply);
      SimulatesToBoth(b.up, i, Release);
    }
  }

  lemma SimulatesAtClient(b: Board, i: nat, j: nat)
    ensures Simulated(b, AtClient(i, j))
  {
    if Sound(b) && i < 2 && j < 2 && b.down.At(j, i).Cons? {
      SoundIsShaped(b);
      var what := if b.down.At(j, i).head.Locked? then GotLocked else GotFailed;
      AskersWith(b.askers, i, b.askers.At(i).Recorded(j, what));
      AskerRecorded(b.askers.At(i), j, what);
      ChannelsWith(b.down, j, i, b.down.At(j, i).tail);
    }
  }

  lemma SimulatesDetermine(b: Board, i: nat, j: nat)
    ensures Simulated(b, Determine(i, j))
  {
    if Sound(b) && i < 2 && j < 2 && b.down.At(j, i).Cons? {
      SoundIsShaped(b);
      AskersWith(b.askers, i, b.askers.At(i));
      AskerStandings(b.askers.At(i));
      GridWith(b.stages, i, j, Determined);
      ChannelsWith(b.down, j, i, b.down.At(j, i));
    }
  }

  lemma SimulatesLook(b: Board, i: nat, j: nat)
    ensures Simulated(b, Look(i, j))
  {
    if Sound(b) && i < 2 && j < 2 && b.down.At(j, i).Cons? {
      SoundIsShaped(b);
      AskersWith(b.askers, i, b.askers.At(i));
      AskerStandings(b.askers.At(i));
      GridWith(b.stages, i, j, if b.askers.At(i).Failed() then Yielding else Unread);
      ChannelsWith(b.down, j, i, b.down.At(j, i).tail);
      assert Askers(b.askers)[i := Askers(b.askers)[i]] == Askers(b.askers);
    }
  }

  lemma SimulatesYield(b: Board, i: nat, j: nat)
    ensures Simulated(b, Yield(i, j))
  {
    if Sound(b) && i < 2 && j < 2 && b.down.At(j, i).Cons? {
      SoundIsShaped(b);
      AskersWith(b.askers, i, b.askers.At(i).Recorded(j, GotFailed));
      AskerRecorded(b.askers.At(i), j, GotFailed);
      AskersWith(b.askers, i, b.askers.At(i));
      GridWith(b.stages, i, j, Unread);
      ChannelsWith(b.down, j, i, b.down.At(j, i).tail);
      ChannelsWith(b.up, i, j, Snoc(b.up.At(i, j), Relinquish));
      SeqOfSnoc(b.up.At(i, j), Relinquish);
    }
  }

  lemma SimulatesSent(d: Four<List<Down>>, j: nat, answer: Answer)
    requires j < 2
    ensures Channels(Sent(d, j, answer)) == Deliver(Channels(d), j, answer)
  {
    if answer.To? && 0 <= answer.dest < 2 {
      var k: nat := answer.dest;
      ChannelsWith(d, j, k, Snoc(d.At(j, k), answer.msg));
      SeqOfSnoc(d.At(j, k), answer.msg);
    }
  }

  lemma SimulatesArbitrate(b: Board, i: nat, j: nat, r: Ruling)
    requires Sound(b) && i < 2 && j < 2 && b.up.At(i, j).Cons? && r.Ruling?
    ensures var s := Full(b);
      && Shaped(Q, s) && s.up[i][j] != [] && s.up[i][j][0] == b.up.At(i, j).head
      && Arbitrate(s, i, j, ArbiterStep(r.judge.Full(), r.answer)) == Full(Ruled(b, i, j, r))
  {
    SoundIsShaped(b);
    var m := b.up.At(i, j).head;
    var c := b.askers.At(j);
    ChannelsWith(b.up, i, j, b.up.At(i, j).tail);
    JudgesWith(b.judges, j, r.judge);
    SimulatesSent(b.down, j, r.answer);
    AskersWith(b.askers, j, if m.Request? then c.(hgstSeq := Max(c.hgstSeq, m.r.timestamp)) else c);
  }

  lemma SimulatesAtArbiter(b: Board, i: nat, j: nat)
    ensures Simulated(b, AtArbiter(i, j))
  {
    if Sound(b) && Move(b, AtArbiter(i, j)).Next? {
      var s := Full(b);
      var m := b.up.At(i, j).head;
      var r := Rule(b.judges.At(j), i, m);
      SimulatesArbitrate(b, i, j, r);
      RuledIsSound(b, i, j, r);
      RuleIsTaking(b.judges.At(j), i, m);
      JudgesWith(b.judges, j, r.judge);
      assert ArbiterTakes(s.arbiters[j], i, s.up[i][j][0], Q.maxSize) == ArbiterStep(r.judge.Full(), r.answer);
      assert Apply(Q, s, AtArbiter(i, j)) == Arbitrate(s, i, j, ArbiterStep(r.judge.Full(), r.answer));
    }
  }

  lemma RuledIsSound(b: Board, i: nat, j: nat, r: Ruling)
    requires Sound(b) && b.up.At(i, j).Cons? && r.Ruling? && OwnerIsClient(r.judge)
    ensures Sound(Ruled(b, i, j, r))
  {
  }

  // ---------------------------------------------------------------- the order of messages

  lemma ListFacts<T>(c: List<T>, x: T)
    ensures c.Cons? ==> Seq(c) != [] && Seq(c)[0] == c.head && Seq(c)[1..] == Seq(c.tail)
    ensures Seq(Snoc(c, x)) == Seq(c) + [x]
  {
    SeqOfSnoc(c, x);
  }

  function Lines(b: Board): Order { Channels(b.order) }

  lemma LineAt(o: Four<List<Side>>, a: nat, c: nat)
    requires a < 2 && c < 2
    ensures Channels(o)[a][c] == Seq(o.At(a, c))
  {
  }

  lemma HeadInLine(b: Board, e: Event)
    requires Move(b, e).Next?
    ensures AtHead(Lines(b), e)
  {
    if e.AtArbiter? {
      LineAt(b.order, e.i, e.j);
    } else if OnOneLink(e) {
      LineAt(b.order, e.j, e.i);
    }
  }

  lemma DroppedSeq(o: Four<List<Side>>, i: nat, j: nat, a: nat, c: nat)
    requires i < 2 && j < 2 && a < 2 && c < 2 && Seq(o.At(i, j)) != []
    ensures Seq(Dropped(o, i, j).At(a, c)) == if a == i && c == j then Seq(o.At(a, c))[1..] else Seq(o.At(a, c))
  {
    ListFacts(o.At(i, j), FromArbiter);
  }

  lemma InLineSeq(o: Four<List<Side>>, j: nat, answer: Answer, a: nat, c: nat)
    requires j < 2 && a < 2 && c < 2
    ensures Seq(InLine(o, j, answer).At(a, c))
         == Seq(o.At(a, c)) + if a == j && answer.To? && answer.dest == c then [FromArbiter] else []
  {
    ListFacts(o.At(a, c), FromArbiter);
  }

  /** What is left of a's messages to c after the step is as in o. */
  ghost predicate InLineAt(b: Board, e: Event, o: Four<List<Side>>, a: nat, c: nat)
    requires Shaped(Q, Full(b)) && Enabled(Q, Full(b), e) && AtHead(Lines(b), e) && a < 2 && c < 2
  {
    Remaining(Q, Full(b), e, Lines(b), a, c) + Sends(Q, Full(b), e, a, c) == Seq(o.At(a, c))
  }

  lemma AskInLine(b: Board, e: Event, a: nat, c: nat)
    requires Shaped(Q, Full(b)) && Enabled(Q, Full(b), e) && (e.Ask? || e.Leave?) && a < 2 && c < 2
    ensures InLineAt(b, e, ToBoth(b.order, e.i, FromRequester), a, c)
  {
    LineAt(b.order, a, c);
    ListFacts(b.order.At(a, c), FromRequester);
  }

  lemma QuietInLine(b: Board, e: Event, a: nat, c: nat)
    requires Shaped(Q, Full(b)) && Enabled(Q, Full(b), e) && AtHead(Lines(b), e) && a < 2 && c < 2
    requires e.Enter? || e.Determine? || (e.Look? && SomeFailed(Full(b).clients[e.i], Q.quorums[e.i]))
    ensures InLineAt(b, e, b.order, a, c)
  {
    LineAt(b.order, a, c);
  }

  lemma HeardInLine(b: Board, e: Event, a: nat, c: nat)
    requires Shaped(Q, Full(b)) && Enabled(Q, Full(b), e) && AtHead(Lines(b), e) && a < 2 && c < 2
    requires e.AtClient? || (e.Look? && !SomeFailed(Full(b).clients[e.i], Q.quorums[e.i]))
    ensures InLineAt(b, e, Dropped(b.order, e.j, e.i), a, c)
  {
    LineAt(b.order, a, c);
    LineAt(b.order, e.j, e.i);
    DroppedSeq(b.order, e.j, e.i, a, c);
    assert Sends(Q, Full(b), e, a, c) == [];
  }

  /** The lines after a RELINQUISH. */
  function YieldLines(b: Board, i: nat, j: nat): Four<List<Side>> {
    Dropped(b.order, j, i).With(i, j, Snoc(Dropped(b.order, j, i).At(i, j), FromRequester))
  }

  lemma YieldInLine(b: Board, e: Event, a: nat, c: nat)
    requires Shaped(Q, Full(b)) && Enabled(Q, Full(b), e) && AtHead(Lines(b), e) && a < 2 && c < 2 && e.Yield?
    ensures InLineAt(b, e, YieldLines(b, e.i, e.j), a, c)
  {
    LineAt(b.order, a, c);
    LineAt(b.order, e.j, e.i);
    ListFacts(b.order.At(a, c), FromRequester);
    ListFacts(Dropped(b.order, e.j, e.i).At(a, c), FromRequester);
  }

  lemma RuledInLine(b: Board, e: Event, answer: Answer, a: nat, c: nat)
    requires Shaped(Q, Full(b)) && Enabled(Q, Full(b), e) && AtHead(Lines(b), e) && a < 2 && c < 2 && e.AtArbiter?
    requires Answered(Q, Full(b), e) == answer
    ensures InLineAt(b, e, InLine(Dropped(b.order, e.i, e.j), e.j, answer), a, c)
  {
    LineAt(b.order, a, c);
    LineAt(b.order, e.i, e.j);
    DroppedSeq(b.order, e.i, e.j, a, c);
    InLineSeq(Dropped(b.order, e.i, e.j), e.j, answer, a, c);
    assert Remaining(Q, Full(b), e, Lines(b), a, c) == Seq(Dropped(b.order, e.i, e.j).At(a, c));
  }

  lemma RulingIsAnswer(b: Board, i: nat, j: nat)
    requires Sound(b) && Move(b, AtArbiter(i, j)).Next? && Shaped(Q, Full(b)) && Enabled(Q, Full(b), AtArbiter(i, j))
    ensures Answered(Q, Full(b), AtArbiter(i, j)) == Rule(b.judges.At(j), i, b.up.At(i, j).head).answer
  {
    RuleIsTaking(b.judges.At(j), i, b.up.At(i, j).head);
    JudgesWith(b.judges, j, b.judges.At(j));
    ChannelsWith(b.up, i, j, b.up.At(i, j).tail);
  }

  lemma LooksAlike(b: Board, i: nat)
    requires i < 2
    ensures b.askers.At(i).Failed() <==> SomeFailed(Full(b).clients[i], Q.quorums[i])
  {
    AskersWith(b.askers, i, b.askers.At(i));
    AskerStandings(b.askers.At(i));
  }

  lemma AllInLine(b: Board, e: Event, a: nat, c: nat)
    requires Sound(b) && Move(b, e).Next? && Shaped(Q, Full(b)) && Enabled(Q, Full(b), e) && AtHead(Lines(b), e)
    requires a < 2 && c < 2
    ensures InLineAt(b, e, Move(b, e).board.order, a, c)
  {
    match e {
      case Ask(_) => AskInLine(b, e, a, c);
      case Leave(_) => AskInLine(b, e, a, c);
      case Enter(_) => QuietInLine(b, e, a, c);
      case Determine(_, _) => QuietInLine(b, e, a, c);
      case AtClient(_, _) => HeardInLine(b, e, a, c);
      case Look(i, _) =>
        LooksAlike(b, i);
        if b.askers.At(i).Failed() { QuietInLine(b, e, a, c); } else { HeardInLine(b, e, a, c); }
      case Yield(_, _) => YieldInLine(b, e, a, c);
      case AtArbiter(i, j) =>
        RulingIsAnswer(b, i, j);
        RuledInLine(b, e, Rule(b.judges.At(j), i, b.up.At(i, j).head).answer, a, c);
    }
  }

  lemma SameOrder(o: Order, g: Four<List<Side>>)
    requires |o| == 2 && |o[0]| == 2 && |o[1]| == 2
    requires forall a: nat, c: nat :: a < 2 && c < 2 ==> o[a][c] == Seq(g.At(a, c))
    ensures o == Channels(g)
  {
    assert o[0] == Channels(g)[0] && o[1] == Channels(g)[1];
  }

  /** A step on the board keeps the order of messages. */
  lemma KeepsInLine(b: Board, e: Event)
    requires Sound(b) && Move(b, e).Next? && Shaped(Q, Full(b)) && Enabled(Q, Full(b), e)
    ensures AtHead(Lines(b), e) && NextOrder(Q, Full(b), e, Lines(b)) == Lines(Move(b, e).board)
  {
    HeadInLine(b, e);
    var o, g := NextOrder(Q, Full(b), e, Lines(b)), Move(b, e).board.order;
    forall a: nat, c: nat | a < 2 && c < 2 ensures o[a][c] == Seq(g.At(a, c)) { AllInLine(b, e, a, c); }
    SameOrder(o, g);
  }

  // ---------------------------------------------------------------- runs, computed

  lemma MoveIsStep(b: Board, e: Event)
    ensures Simulated(b, e)
  {
    match e {
      case Ask(i) => SimulatesAsk(b, i);
      case Enter(i) => SimulatesEnter(b, i);
      case Leave(i) => SimulatesLeave(b, i);
      case AtArbiter(i, j) => SimulatesAtArbiter(b, i, j);
      case AtClient(i, j) => SimulatesAtClient(b, i, j);
      case Determine(i, j) => SimulatesDetermine(b, i, j);
      case Look(i, j) => SimulatesLook(b, i, j);
      case Yield(i, j) => SimulatesYield(b, i, j);
    }
  }

  /** All the moves of es, one after another. */
  function Play(b: Board, es: List<Event>): Next
    decreases es
  {
    if es.Nil? then Next(b)
    else
      match Move(b, es.head)
      case Stuck => Stuck
      case Next(b') => Play(b', es.tail)
  }
  lemma {:induction false} PlayIsRun(b: Board, es: List<Event>)
    requires Sound(b) && Play(b, es).Next?
    ensures Run(Q, Full(b), Seq(es)) && After(Q, Full(b), Seq(es)) == Full(Play(b, es).board)
    ensures InOrderFrom(Q, Full(b), Seq(es), Lines(b))
    decreases es
  {
    if es.Cons? {
      MoveIsStep(b, es.head);
      KeepsInLine(b, es.head);
      PlayIsRun(Move(b, es.head).board, es.tail);
      assert Seq(es)[1..] == Seq(es.tail);
    }
  }

  function Cat<T>(c: List<T>, d: List<T>): List<T> {
    if c.Nil? then d else Cons(c.head, Cat(c.tail, d))
  }

  lemma {:induction false} PlayCat(b: Board, es: List<Event>, more: List<Event>)
    requires Play(b, es).Next?
    ensures Play(b, Cat(es, more)) == Play(Play(b, es).board, more)
    decreases es
  {
    if es.Cons? {
      PlayCat(Move(b, es.head).board, es.tail, more);
    }
  }

  /** The last of the events, the first of which is first. */
  function Last(first: Event, es: List<Event>): Event
    decreases es
  {
    if es.Nil? then first else Last(es.head, es.tail)
  }

  /** As soon as an INQUIRE is determined it is decided on, and a RELINQUISH follows its decision at once. */
  predicate AtOnce(first: Event, es: List<Event>)
    decreases es
  {
    es.Cons? ==>
      && (first.Determine? ==> es.head == Look(first.i, first.j))
      && (es.head.Look? ==> first == Determine(es.head.i, es.head.j))
      && (es.head.Yield? ==> first == Look(es.head.i, es.head.j))
      && AtOnce(es.head, es.tail)
  }

  lemma {:induction false} AtOnceCat(first: Event, es: List<Event>, more: List<Event>)
    requires AtOnce(first, es) && AtOnce(Last(first, es), more)
    ensures AtOnce(first, Cat(es, more)) && Last(first, Cat(es, more)) == Last(Last(first, es), more)
    decreases es
  {
    if es.Cons? {
      AtOnceCat(es.head, es.tail, more);
    }
  }
}

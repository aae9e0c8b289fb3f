/**
 The replicated file on top of the lock: the clients, the lock they take for one file, and m servers
 that each keep a replica of it.  This is what the lock is for: the replicas agree whenever nobody is
 inside, and a READ sees the last completed WRITE, whichever algorithm the lock runs.
*/
module Replication {
  import opened Bytes
  import TextCodec
  import FileText
  import L = FileLock
  import opened ReplicaNode

  datatype State = State(
    lock: L.Lock,
    ops: seq<Op>,
    replicas: seq<Text>,
    requests: seq<seq<seq<ToServer>>>,   // requests[i][v]: from client i to server v
    answers: seq<seq<seq<ToClient>>>,    // answers[v][i]: from server v to client i
    log: seq<Text>)                      // the lines of the completed writes

  datatype Event =
    | Lock(e: L.Event)                       // any step of the lock but leaving
    | BeginWrite(i: nat, timestamp: Int32)
    | BeginRead(i: nat, v: nat)
    | AtServer(i: nat, v: nat)               // server v takes client i's next request
    | AtClient(i: nat, v: nat)               // client i takes server v's next answer
    | Leave(i: nat)

  function Init(lock: L.Lock, m: nat, text: Text): State {
    var n := L.Clients(lock);
    State(lock, seq(n, _ => Idle), seq(m, _ => text),
          seq(n, _ => seq(m, _ => [])), seq(m, _ => seq(n, _ => [])), [])
  }

  ghost predicate Shaped(s: State) {
    var n, m := |s.ops|, |s.replicas|;
    && n < 0x8000_0000
    && L.Clients(s.lock) == n && |s.requests| == n && |s.answers| == m
    && (forall i :: 0 <= i < n ==> |s.requests[i]| == m)
    && (forall v :: 0 <= v < m ==> |s.answers[v]| == n)
    && (forall i :: 0 <= i < n && s.ops[i].Writing? ==> |s.ops[i].done| == m)
  }

  ghost predicate Enabled(s: State, e: Event) {
    var n, m := |s.ops|, |s.replicas|;
    && Shaped(s)
    && match e
       case Lock(b) => L.Allowed(s.lock, b) && !L.IsLeaving(b)
       case BeginWrite(i, _) => i < n && L.Inside(s.lock, i) && s.ops[i] == Idle
       case BeginRead(i, v) => i < n && v < m && L.Inside(s.lock, i) && s.ops[i] == Idle
       case AtServer(i, v) => i < n && v < m && s.requests[i][v] != []
       case AtClient(i, v) => i < n && v < m && s.answers[v][i] != []
       case Leave(i) => i < n && L.Inside(s.lock, i) && L.Allowed(s.lock, L.Leaving(s.lock, i)) && Finished(s.ops[i])
  }

  ghost function Apply(s: State, e: Event): State
    requires Enabled(s, e)
  {
    match e
    case Lock(b) => s.(lock := L.Step(s.lock, b))
    case BeginWrite(i, timestamp) =>
      var line := TextCodec.Line(i, timestamp);
      s.(ops := s.ops[i := StartWrite(line, |s.replicas|)],
         requests := s.requests[i := seq(|s.replicas|, v requires 0 <= v < |s.replicas| =>
                                           s.requests[i][v] + [WriteRequest(line)])])
    case BeginRead(i, v) =>
      s.(ops := s.ops[i := Reading(v, None)],
         requests := s.requests[i := s.requests[i][v := s.requests[i][v] + [ReadRequest]]])
    case AtServer(i, v) =>
      var r := Serve(s.replicas[v], s.requests[i][v][0]);
      s.(replicas := s.replicas[v := r.text],
         requests := s.requests[i := s.requests[i][v := s.requests[i][v][1..]]],
         answers := s.answers[v := s.answers[v][i := s.answers[v][i] + [r.answer]]])
    case AtClient(i, v) =>
      s.(ops := s.ops[i := TakeAnswer(s.ops[i], v, s.answers[v][i][0])],
         answers := s.answers[v := s.answers[v][i := s.answers[v][i][1..]]])
    case Leave(i) =>
      s.(lock := L.Step(s.lock, L.Leaving(s.lock, i)),
         ops := s.ops[i := Idle],
         log := if s.ops[i].Writing? then s.log + [s.ops[i].line] else s.log)
  }

  // ---------------------------------------------------------------- the invariant

  /** The file after the given lines have been appended, one after another. */
  function Content(text: Text, log: seq<Text>): Text {
    if log == [] then text else FileText.Append(Content(text, log[..|log| - 1]), log[|log| - 1])
  }

  /** Each line and a newline after it. */
  function Lines(log: seq<Text>): Text {
    if log == [] then [] else log[0] + [10] + Lines(log[1..])
  }

  lemma {:induction false} LinesAppend(log: seq<Text>, line: Text)
    ensures Lines(log + [line]) == Lines(log) + line + [10]
  {
    if log == [] {
      assert [line][1..] == [];
    } else {
      assert (log + [line])[1..] == log[1..] + [line];
      LinesAppend(log[1..], line);
    }
  }

  /** The old text stays, and the lines follow it. */
  lemma {:induction false} ContentIsTextAndLines(text: Text, log: seq<Text>)
    ensures Content(text, log) == text + Lines(log)
  {
    if log == [] {
      assert text + [] == text;
    } else {
      var k := |log| - 1;
      ContentIsTextAndLines(text, log[..k]);
      LinesAppend(log[..k], log[k]);
      assert log[..k] + [log[k]] == log;
    }
  }

  /** Client i's exchange with server v, whose replica is text, when the agreed file is common. */
  predicate Exchange(op: Op, v: nat, requests: seq<ToServer>, answers: seq<ToClient>, text: Text, common: Text) {
    match op
    case Idle => requests == [] && answers == []
    case Writing(line, done) =>
      && v < |done|
      && ((requests == [WriteRequest(line)] && answers == [] && !done[v] && text == common)
          || (requests == [] && answers == [WriteReply] && !done[v] && text == FileText.Append(common, line))
          || (requests == [] && answers == [] && done[v] && text == FileText.Append(common, line)))
    case Reading(u, result) =>
      && text == common
      && if v != u then requests == [] && answers == []
         else
           || (requests == [ReadRequest] && answers == [] && result == None)
           || (requests == [] && answers == [ReadReply(FileText.LastLine(common))] && result == None)
           || (requests == [] && answers == [] && result == Some(FileText.LastLine(common)))
  }

  ghost predicate ExchangeAt(s: State, common: Text, i: nat, v: nat)
    requires Shaped(s) && i < |s.ops| && v < |s.replicas|
  {
    Exchange(s.ops[i], v, s.requests[i][v], s.answers[v][i], s.replicas[v], common)
  }

  ghost predicate Inv(s: State, text: Text) {
    && Shaped(s) && L.Inv(s.lock)
    && (forall i :: 0 <= i < |s.ops| && s.ops[i] != Idle ==> L.Inside(s.lock, i))
    && (forall i: nat, v: nat :: i < |s.ops| && v < |s.replicas| ==> ExchangeAt(s, Content(text, s.log), i, v))
    && ((forall i :: 0 <= i < |s.ops| ==> !s.ops[i].Writing?) ==>
          forall v :: 0 <= v < |s.replicas| ==> s.replicas[v] == Content(text, s.log))
  }

  ghost predicate Starts(lock: L.Lock) { L.Initial(lock) && L.Clients(lock) < 0x8000_0000 }

  lemma InitInv(lock: L.Lock, m: nat, text: Text)
    requires Starts(lock)
    ensures Inv(Init(lock, m, text), text)
  {
  }

  /** Only the client inside has an exchange with the servers. */
  lemma OthersIdle(s: State, text: Text, i: nat, k: nat)
    requires Inv(s, text) && i < |s.ops| && k < |s.ops| && i != k && L.Inside(s.lock, i)
    ensures s.ops[k] == Idle
  {
    L.Excludes(s.lock, i, k);
  }

  lemma LockStep(s: State, text: Text, b: L.Event)
    requires Inv(s, text) && Enabled(s, Lock(b))
    ensures Inv(Apply(s, Lock(b)), text)
  {
    L.StepInv(s.lock, b);
    forall k: nat | k < |s.ops| && s.ops[k] != Idle ensures L.Inside(L.Step(s.lock, b), k) {
      L.InsideChanges(s.lock, b, k);
    }
    var s' := Apply(s, Lock(b));
    forall i: nat, v: nat | i < |s.ops| && v < |s.replicas|
      ensures ExchangeAt(s', Content(text, s.log), i, v)
    {
      assert ExchangeAt(s, Content(text, s.log), i, v);
    }
  }

  lemma BeginStep(s: State, text: Text, e: Event)
    requires Inv(s, text) && Enabled(s, e) && (e.BeginWrite? || e.BeginRead?)
    ensures Inv(Apply(s, e), text)
  {
    var s' := Apply(s, e);
    forall k: nat | k < |s.ops| && k != e.i ensures s.ops[k] == Idle { OthersIdle(s, text, e.i, k); }
    forall i: nat, v: nat | i < |s.ops| && v < |s.replicas|
      ensures ExchangeAt(s', Content(text, s.log), i, v)
    {
      assert ExchangeAt(s, Content(text, s.log), i, v);
    }
  }

  lemma ServerStep(s: State, text: Text, i: nat, v: nat)
    requires Inv(s, text) && Enabled(s, AtServer(i, v))
    ensures Inv(Apply(s, AtServer(i, v)), text)
  {
    var s' := Apply(s, AtServer(i, v));
    assert ExchangeAt(s, Content(text, s.log), i, v);
    forall k: nat | k < |s.ops| && k != i ensures s.ops[k] == Idle { OthersIdle(s, text, i, k); }
    forall k: nat, w: nat | k < |s.ops| && w < |s.replicas|
      ensures ExchangeAt(s', Content(text, s.log), k, w)
    {
      assert ExchangeAt(s, Content(text, s.log), k, w);
    }
  }

  lemma ClientStep(s: State, text: Text, i: nat, v: nat)
    requires Inv(s, text) && Enabled(s, AtClient(i, v))
    ensures Inv(Apply(s, AtClient(i, v)), text)
  {
    var s' := Apply(s, AtClient(i, v));
    assert ExchangeAt(s, Content(text, s.log), i, v);
    forall k: nat, w: nat | k < |s.ops| && w < |s.replicas|
      ensures ExchangeAt(s', Content(text, s.log), k, w)
    {
      assert ExchangeAt(s, Content(text, s.log), k, w);
    }
  }

  function LogAfter(s: State, i: nat): seq<Text>
    requires i < |s.ops|
  {
    if s.ops[i].Writing? then s.log + [s.ops[i].line] else s.log
  }

  /** When the client inside has all its answers, every replica is the next agreed file. */
  lemma LeaveReplica(s: State, text: Text, i: nat, v: nat)
    requires Shaped(s) && i < |s.ops| && v < |s.replicas| && Finished(s.ops[i])
    requires ExchangeAt(s, Content(text, s.log), i, v)
    ensures s.replicas[v] == Content(text, LogAfter(s, i))
    ensures s.requests[i][v] == [] && s.answers[v][i] == []
  {
  }

  lemma LeaveStep(s: State, text: Text, i: nat)
    requires Inv(s, text) && Enabled(s, Leave(i))
    ensures Inv(Apply(s, Leave(i)), text)
  {
    L.StepInv(s.lock, L.Leaving(s.lock, i));
    var s' := Apply(s, Leave(i));
    var common := Content(text, s'.log);
    forall k: nat | k < |s.ops| && k != i ensures s.ops[k] == Idle { OthersIdle(s, text, i, k); }
    forall v: nat | v < |s.replicas| ensures s'.replicas[v] == common {
      assert ExchangeAt(s, Content(text, s.log), i, v);
      LeaveReplica(s, text, i, v);
    }
    forall k: nat, v: nat | k < |s.ops| && v < |s.replicas| ensures ExchangeAt(s', common, k, v) {
      assert ExchangeAt(s, Content(text, s.log), k, v);
      if k == i {
        LeaveReplica(s, text, i, v);
      }
    }
  }

  lemma StepInv(s: State, text: Text, e: Event)
    requires Inv(s, text) && Enabled(s, e)
    ensures Inv(Apply(s, e), text)
    ensures |Apply(s, e).ops| == |s.ops| && |Apply(s, e).replicas| == |s.replicas|
  {
    match e {
      case Lock(b) => LockStep(s, text, b);
      case BeginWrite(_, _) => BeginStep(s, text, e);
      case BeginRead(_, _) => BeginStep(s, text, e);
      case AtServer(i, v) => ServerStep(s, text, i, v);
      case AtClient(i, v) => ClientStep(s, text, i, v);
      case Leave(i) => LeaveStep(s, text, i);
    }
  }

  // ---------------------------------------------------------------- what readers and writers are promised

  ghost predicate Run(s: State, es: seq<Event>)
    decreases |es|
  {
    es == [] || (Enabled(s, es[0]) && Run(Apply(s, es[0]), es[1..]))
  }

  ghost function After(s: State, es: seq<Event>): State
    requires Run(s, es)
    decreases |es|
  {
    if es == [] then s else After(Apply(s, es[0]), es[1..])
  }

  /** The client's id, a comma and the timestamp. */
  function LineOf(i: nat, timestamp: Int32): Text { TextCodec.ToString(i) + [44] + TextCodec.ToString(timestamp) }

  /** The lines of the writes that a run begins, in order. */
  function Begun(es: seq<Event>): seq<Text> {
    if es == [] then []
    else (if es[0].BeginWrite? then [LineOf(es[0].i, es[0].timestamp)] else []) + Begun(es[1..])
  }

  /** The line of the write that is under way, if any. */
  ghost predicate Pending(s: State, lines: seq<Text>) {
    || (lines == [] && forall i :: 0 <= i < |s.ops| ==> !s.ops[i].Writing?)
    || (exists i :: 0 <= i < |s.ops| && s.ops[i].Writing? && lines == [s.ops[i].line])
  }

  predicate SameWrite(a: Op, b: Op) {
    (a.Writing? <==> b.Writing?) && (a.Writing? && b.Writing? ==> a.line == b.line)
  }

  /** A step that begins no write and ends none. */
  lemma PendingStays(s: State, e: Event, lines: seq<Text>)
    requires Enabled(s, e) && Pending(s, lines)
    requires !e.BeginWrite? && !e.Leave? && (e.BeginRead? ==> s.ops[e.i] == Idle)
    ensures Pending(Apply(s, e), lines) && Apply(s, e).log == s.log
  {
    var s' := Apply(s, e);
    assert forall k :: 0 <= k < |s.ops| ==> SameWrite(s.ops[k], s'.ops[k]);
  }

  lemma PendingStep(s: State, text: Text, e: Event, lines: seq<Text>) returns (lines': seq<Text>)
    requires Inv(s, text) && Enabled(s, e) && Pending(s, lines)
    ensures Pending(Apply(s, e), lines')
    ensures s.log + lines + Begun([e]) == Apply(s, e).log + lines'
  {
    var s' := Apply(s, e);
    assert Begun([e][1..]) == [];
    if e.BeginWrite? || e.Leave? {
      forall k: nat | k < |s.ops| && k != e.i ensures s.ops[k] == Idle { OthersIdle(s, text, e.i, k); }
    }
    match e {
      case BeginWrite(i, t) =>
        lines' := [LineOf(i, t)];
        assert s'.ops[i].Writing? && s'.ops[i].line == LineOf(i, t);
      case Leave(i) => lines' := [];
      case _ =>
        lines' := lines;
        PendingStays(s, e, lines);
    }
  }

  lemma BegunFirst(es: seq<Event>)
    requires es != []
    ensures Begun(es) == Begun([es[0]]) + Begun(es[1..])
  {
  }

  lemma Rechain(a: seq<Text>, b: seq<Text>, first: seq<Text>, rest: seq<Text>, c: seq<Text>, d: seq<Text>)
    requires a + b + first == c && c + rest == d
    ensures a + b + (first + rest) == d
  {
  }

  lemma {:induction false} RunPending(s: State, text: Text, es: seq<Event>, lines: seq<Text>)
    returns (lines': seq<Text>)
    requires Inv(s, text) && Run(s, es) && Pending(s, lines)
    ensures Inv(After(s, es), text) && Pending(After(s, es), lines')
    ensures |After(s, es).ops| == |s.ops| && |After(s, es).replicas| == |s.replicas|
    ensures s.log + lines + Begun(es) == After(s, es).log + lines'
    decreases |es|
  {
    if es == [] {
      lines' := lines;
    } else {
      StepInv(s, text, es[0]);
      var more := PendingStep(s, text, es[0], lines);
      lines' := RunPending(Apply(s, es[0]), text, es[1..], more);
      BegunFirst(es);
      Rechain(s.log, lines, Begun([es[0]]), Begun(es[1..]), Apply(s, es[0]).log + more, After(s, es).log + lines');
    }
  }

  /**
   While no client is inside, all replicas are the initial file with the lines of all writes
   begun so far, once each and in the order of their critical sections.
  */
  lemma ReplicasAgree(lock: L.Lock, m: nat, text: Text, es: seq<Event>)
    requires Starts(lock) && Run(Init(lock, m, text), es)
    ensures var t := After(Init(lock, m, text), es);
      && Shaped(t) && |t.replicas| == m
      && ((forall i :: 0 <= i < |t.ops| ==> !L.Inside(t.lock, i)) ==>
            forall v :: 0 <= v < m ==> t.replicas[v] == text + Lines(Begun(es)))
  {
    ContentIsTextAndLines(text, Begun(es));
    InitInv(lock, m, text);
    var lines := RunPending(Init(lock, m, text), text, es, []);
    var t := After(Init(lock, m, text), es);
    assert Begun(es) == t.log + lines;
    AgreedOutside(t, text, Begun(es), lines);
  }

  lemma AgreedOutside(t: State, text: Text, begun: seq<Text>, lines: seq<Text>)
    requires Inv(t, text) && Pending(t, lines) && begun == t.log + lines
    ensures (forall i :: 0 <= i < |t.ops| ==> !L.Inside(t.lock, i)) ==>
      forall v :: 0 <= v < |t.replicas| ==> t.replicas[v] == Content(text, begun)
  {
    if forall i :: 0 <= i < |t.ops| ==> !L.Inside(t.lock, i) {
      assert forall i :: 0 <= i < |t.ops| ==> t.ops[i] == Idle;
      assert lines == [] && t.log + [] == t.log;
    }
  }

  /** Every replica is the agreed file, or that file with the line of the write under way. */
  lemma ReplicasDuringWrite(lock: L.Lock, m: nat, text: Text, es: seq<Event>, v: nat)
    requires Starts(lock) && v < m && Run(Init(lock, m, text), es)
    ensures var t := After(Init(lock, m, text), es);
      && |t.replicas| == m
      && (t.replicas[v] == text + Lines(t.log) ||
          exists i :: 0 <= i < |t.ops| && t.ops[i].Writing? &&
            t.replicas[v] == text + Lines(t.log) + t.ops[i].line + [10])
  {
    InitInv(lock, m, text);
    var lines := RunPending(Init(lock, m, text), text, es, []);
    var t := After(Init(lock, m, text), es);
    ReplicaIs(t, text, v);
    ContentIsTextAndLines(text, t.log);
  }

  lemma ReplicaIs(t: State, text: Text, v: nat)
    requires Inv(t, text) && v < |t.replicas|
    ensures t.replicas[v] == Content(text, t.log) ||
      exists i :: 0 <= i < |t.ops| && t.ops[i].Writing? &&
        t.replicas[v] == FileText.Append(Content(text, t.log), t.ops[i].line)
  {
    if i :| 0 <= i < |t.ops| && t.ops[i].Writing? {
      assert ExchangeAt(t, Content(text, t.log), i, v);
    }
  }

  lemma {:induction false} LastLineOfContent(text: Text, log: seq<Text>)
    requires FileText.WholeLines(text) && forall l <- log :: FileText.PlainLine(l) && |l| <= 1023
    ensures FileText.WholeLines(Content(text, log))
    ensures FileText.LastLine(Content(text, log)) ==
      if log == [] then FileText.LastLine(text) else Some(log[|log| - 1])
  {
    if log != [] {
      LastLineOfContent(text, log[..|log| - 1]);
      FileText.ReadAfterAppendIff(Content(text, log[..|log| - 1]), log[|log| - 1]);
    }
  }

  lemma {:induction false} BegunArePlain(s: State, es: seq<Event>)
    requires Run(s, es)
    ensures forall l <- Begun(es) :: FileText.PlainLine(l) && |l| <= 1023
    decreases |es|
  {
    if es != [] {
      BegunArePlain(Apply(s, es[0]), es[1..]);
      if es[0].BeginWrite? {
        TextCodec.LineIsShort(es[0].i, es[0].timestamp);
      }
    }
  }

  lemma ReadResult(t: State, text: Text, lines: seq<Text>, i: nat)
    requires Inv(t, text) && Pending(t, lines) && i < |t.ops|
    requires t.ops[i].Reading? && t.ops[i].server < |t.replicas| && t.ops[i].result.Some?
    ensures lines == [] && t.ops[i].result.value == FileText.LastLine(Content(text, t.log))
  {
    forall k: nat | k < |t.ops| && k != i ensures t.ops[k] == Idle { OthersIdle(t, text, i, k); }
    assert ExchangeAt(t, Content(text, t.log), i, t.ops[i].server);
  }

  /** Client i's READ has been answered. */
  ghost predicate HasRead(t: State, i: nat) {
    i < |t.ops| && t.ops[i].Reading? && t.ops[i].server < |t.replicas| && t.ops[i].result.Some?
  }

  /**
   A READ, whichever server it asks, returns the line of the most recent WRITE, or the last
   line of the initial file if there has been none.  No WRITE is under way at that time.
  */
  lemma ReadSeesLastWrite(lock: L.Lock, m: nat, text: Text, es: seq<Event>, i: nat)
    requires Starts(lock) && FileText.WholeLines(text) && Run(Init(lock, m, text), es)
    requires HasRead(After(Init(lock, m, text), es), i)
    ensures After(Init(lock, m, text), es).log == Begun(es)
    ensures After(Init(lock, m, text), es).ops[i].result.value ==
      if Begun(es) == [] then FileText.LastNonBlank(TextCodec.Split(text, 10)) else Some(Begun(es)[|Begun(es)| - 1])
  {
    FileText.LastLineIsLastNonBlank(text);
    InitInv(lock, m, text);
    var lines := RunPending(Init(lock, m, text), text, es, []);
    var t := After(Init(lock, m, text), es);
    ReadResult(t, text, lines, i);
    assert Begun(es) == t.log + lines;
    BegunArePlain(Init(lock, m, text), es);
    LastLineOfContent(text, t.log);
  }

  // ---------------------------------------------------------------- the waits of a READ and of a WRITE end

  /** The messages still to be treated in client i's exchanges with the first k servers. */
  ghost function Work(s: State, i: nat, k: nat): nat
    requires Shaped(s) && i < |s.ops| && k <= |s.replicas|
  {
    if k == 0 then 0 else Work(s, i, k - 1) + 2 * |s.requests[i][k - 1]| + |s.answers[k - 1][i]|
  }

  lemma {:induction false} NoWork(s: State, i: nat, k: nat)
    requires Shaped(s) && i < |s.ops| && k <= |s.replicas|
    ensures Work(s, i, k) == 0 <==> forall v :: 0 <= v < k ==> s.requests[i][v] == [] && s.answers[v][i] == []
  {
    if k > 0 { NoWork(s, i, k - 1); }
  }

  /** Only the exchange with server v differs, if any. */
  ghost predicate Alike(s: State, s': State, i: nat, v: nat) {
    && Shaped(s) && Shaped(s') && i < |s.ops| == |s'.ops| && v < |s.replicas| == |s'.replicas|
    && forall w: nat :: w < |s.replicas| && w != v ==>
         s'.requests[i][w] == s.requests[i][w] && s'.answers[w][i] == s.answers[w][i]
  }

  lemma {:induction false} WorkAlike(s: State, s': State, i: nat, v: nat, k: nat)
    requires Alike(s, s', i, v) && k <= |s.replicas|
    ensures Work(s', i, k) - Work(s, i, k) == if k <= v then 0 else
      2 * (|s'.requests[i][v]| - |s.requests[i][v]|) + |s'.answers[v][i]| - |s.answers[v][i]|
  {
    if k > 0 { WorkAlike(s, s', i, v, k - 1); }
  }

  lemma {:induction false} WorkOfWrite(s: State, i: nat, timestamp: Int32, k: nat)
    requires Enabled(s, BeginWrite(i, timestamp)) && k <= |s.replicas|
    ensures var s' := Apply(s, BeginWrite(i, timestamp));
      Shaped(s') && Work(s', i, k) == Work(s, i, k) + 2 * k
  {
    if k > 0 { WorkOfWrite(s, i, timestamp, k - 1); }
  }

  /** A server or the client treats a message of client i's request. */
  predicate Treats(e: Event, i: nat) { (e.AtServer? || e.AtClient?) && e.i == i }

  function Treated(es: seq<Event>, i: nat): nat {
    if es == [] then 0 else (if Treats(es[0], i) then 1 else 0) + Treated(es[1..], i)
  }

  /** Client i waits for answers of existing servers. */
  ghost predicate Waits(s: State, i: nat) {
    && Shaped(s) && i < |s.ops| && s.ops[i] != Idle
    && (s.ops[i].Reading? ==> s.ops[i].server < |s.replicas|)
  }

  /** A step that treats no message of client i's request leaves its exchanges as they are. */
  lemma OtherStepsAlike(s: State, e: Event, i: nat, v: nat)
    requires Enabled(s, e) && Waits(s, i) && e != Leave(i) && !e.AtServer? && !e.AtClient? && v < |s.replicas|
    ensures Waits(Apply(s, e), i) && Alike(s, Apply(s, e), i, v)
    ensures Apply(s, e).requests[i][v] == s.requests[i][v] && Apply(s, e).answers[v][i] == s.answers[v][i]
  {
  }

  lemma WorkStep(s: State, e: Event, i: nat)
    requires Enabled(s, e) && Waits(s, i) && e != Leave(i)
    ensures Waits(Apply(s, e), i) && |Apply(s, e).replicas| == |s.replicas|
    ensures Work(Apply(s, e), i, |s.replicas|)
         == Work(s, i, |s.replicas|) - (if Treats(e, i) then 1 else 0)
  {
    var s', m := Apply(s, e), |s.replicas|;
    if e.AtServer? || e.AtClient? {
      WorkAlike(s, s', i, e.v, m);
    } else if m > 0 {
      OtherStepsAlike(s, e, i, 0);
      WorkAlike(s, s', i, 0, m);
    }
  }

  /** Nothing more is awaited from server v. */
  predicate AnsweredBy(op: Op, v: nat) {
    match op
    case Idle => true
    case Writing(_, done) => v < |done| && done[v]
    case Reading(u, result) => v == u ==> result.Some?
  }

  lemma FinishedIffAnswered(op: Op, m: nat)
    requires op != Idle && (op.Writing? ==> |op.done| == m) && (op.Reading? ==> op.server < m)
    ensures Finished(op) <==> forall v: nat :: v < m ==> AnsweredBy(op, v)
  {
    if forall v: nat :: v < m ==> AnsweredBy(op, v) {
      assert op.Reading? ==> AnsweredBy(op, op.server);
      assert op.Writing? ==> forall v: nat :: v < m ==> op.done[v] by {
        if op.Writing? { forall v: nat | v < m ensures op.done[v] { assert AnsweredBy(op, v); } }
      }
    }
  }

  /** The wait is over exactly when there is no message left to be treated. */
  lemma FinishedIffNoWork(s: State, text: Text, i: nat)
    requires Inv(s, text) && Waits(s, i)
    ensures Finished(s.ops[i]) <==> Work(s, i, |s.replicas|) == 0
    ensures Finished(s.ops[i]) || exists v :: Enabled(s, AtServer(i, v)) || Enabled(s, AtClient(i, v))
  {
    NoWork(s, i, |s.replicas|);
    forall v: nat | v < |s.replicas|
      ensures s.requests[i][v] == [] && s.answers[v][i] == [] <==> AnsweredBy(s.ops[i], v)
    {
      assert ExchangeAt(s, Content(text, s.log), i, v);
    }
    FinishedIffAnswered(s.ops[i], |s.replicas|);
    if v: nat :| v < |s.replicas| && (s.requests[i][v] != [] || s.answers[v][i] != []) {
      assert Enabled(s, AtServer(i, v)) || Enabled(s, AtClient(i, v));
    }
  }

  lemma {:induction false} WorkOfRun(s: State, text: Text, es: seq<Event>, i: nat)
    requires Inv(s, text) && Run(s, es) && Waits(s, i) && Leave(i) !in es
    ensures Inv(After(s, es), text) && Waits(After(s, es), i) && |After(s, es).replicas| == |s.replicas|
    ensures Work(After(s, es), i, |s.replicas|) + Treated(es, i) == Work(s, i, |s.replicas|)
    decreases |es|
  {
    if es != [] {
      StepInv(s, text, es[0]);
      WorkStep(s, es[0], i);
      WorkOfRun(Apply(s, es[0]), text, es[1..], i);
    }
  }

  lemma WorkBegins(s: State, text: Text, e: Event)
    requires Inv(s, text) && Enabled(s, e) && (e.BeginWrite? || e.BeginRead?)
    ensures var s', m := Apply(s, e), |s.replicas|;
      Waits(s', e.i) && |s'.replicas| == m && Work(s', e.i, m) == if e.BeginWrite? then 2 * m else 2
  {
    var m := |s.replicas|;
    forall v: nat | v < m ensures s.requests[e.i][v] == [] && s.answers[v][e.i] == [] {
      assert ExchangeAt(s, Content(text, s.log), e.i, v);
    }
    NoWork(s, e.i, m);
    if e.BeginWrite? { WorkOfWrite(s, e.i, e.timestamp, m); } else { WorkAlike(s, Apply(s, e), e.i, e.v, m); }
  }

  /**
   A WRITE to m servers is over when exactly 2m of its messages have been treated, and a READ when two have,
   whatever else happens; until then one more of them can be treated.
  */
  lemma RequestEnds(s: State, text: Text, e: Event, es: seq<Event>)
    requires Inv(s, text) && Enabled(s, e) && (e.BeginWrite? || e.BeginRead?)
    requires Run(Apply(s, e), es) && Leave(e.i) !in es
    ensures var t, messages := After(Apply(s, e), es), if e.BeginWrite? then 2 * |s.replicas| else 2;
      && e.i < |t.ops| && Treated(es, e.i) <= messages
      && (Finished(t.ops[e.i]) <==> Treated(es, e.i) == messages)
      && (Treated(es, e.i) < messages ==>
            exists v :: Enabled(t, AtServer(e.i, v)) || Enabled(t, AtClient(e.i, v)))
  {
    StepInv(s, text, e);
    WorkBegins(s, text, e);
    WorkOfRun(Apply(s, e), text, es, e.i);
    FinishedIffNoWork(After(Apply(s, e), es), text, e.i);
  }
}

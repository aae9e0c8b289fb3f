/**
 From protocol messages to bytes and back.  The channels of the system model carry REQUEST and
 REPLY; the program carries packets whose text holds the file, the sender and its number.
*/
module RicartAgrawalaWire {
  import opened Bytes
  import opened PacketCodec
  import opened TextCodec
  import RA = RicartAgrawalaNode
  import System = RicartAgrawalaSystem

  // Their places in `MessageType`.
  const CLIENT_REQUEST_CS_CLIENT: Int32 := 12
  const CLIENT_REPLY_CS_CLIENT: Int32 := 13

  /** One sending: a protocol message with the sender's current number and clock. */
  datatype Sending = Sending(from: nat, to: nat, ourSeq: nat, clock: Int32, m: RA.Message)

  /** The numbers fit a packet's fields. */
  predicate Small(filename: Text, x: Sending) {
    x.from < 0x8000_0000 && x.to < 0x8000_0000 && x.ourSeq < 0x8000_0000 && |filename| < 0x1000_0000
  }

  predicate Fits(filename: Text, x: Sending) {
    Small(filename, x) && (x.m.Request? ==> x.m.seqNo == x.ourSeq)
  }

  /** `get_msg` and `createMessage`. */
  function ToPacket(filename: Text, x: Sending): Packet
    requires Fits(filename, x)
  {
    Packet(if x.m.Request? then CLIENT_REQUEST_CS_CLIENT else CLIENT_REPLY_CS_CLIENT,
           x.from, x.to, x.clock, Print(Payload(filename, x.from, x.ourSeq)))
  }

  /** What `handleClientPacket` and `treat_message` make of a packet: for which file, from whom, and what. */
  datatype Receipt = Receipt(filename: Text, from: int, m: RA.Message)

  function Receive(p: Packet): Option<Receipt> {
    match Parse(p.msg)
    case None => None
    case Some(t) =>
      if p.messageType == CLIENT_REPLY_CS_CLIENT then Some(Receipt(t.filename, t.id, RA.Reply))
      else if p.messageType == CLIENT_REQUEST_CS_CLIENT && t.seqNo >= 0 then
        Some(Receipt(t.filename, t.id, RA.Request(t.seqNo)))
      else None
  }

  /** A REQUEST is type 12 and a REPLY 13; the packet names its sender, its receiver and the sender's clock. */
  lemma PacketOf(filename: Text, x: Sending)
    requires Fits(filename, x)
    ensures var p := ToPacket(filename, x);
      && p.messageType == (if x.m.Request? then 12 else 13) && p.sender == x.from && p.receiver == x.to
      && p.timestamp == x.clock
      && (59 !in filename ==>
            var tokens := TextCodec.Split(p.msg, 59);
            && |tokens| == 2 && tokens[0] == filename
            && var numbers := TextCodec.Split(tokens[1], 35);
               |numbers| == 2 && Atoi(numbers[0]) == x.from && Atoi(numbers[1]) == x.ourSeq)
  {
    if SEMICOLON !in filename { PayloadReads(Payload(filename, x.from, x.ourSeq)); }
  }

  lemma ReceiveSent(filename: Text, x: Sending)
    requires Fits(filename, x) && SEMICOLON !in filename
    ensures Sendable(ToPacket(filename, x))
    ensures Receive(ToPacket(filename, x)) == Some(Receipt(filename, x.from, x.m))
  {
    ParsePrintIff(Payload(filename, x.from, x.ourSeq));
    NumberIsShort(x.from);
    NumberIsShort(x.ourSeq);
  }

  function ToPackets(filename: Text, xs: seq<Sending>): (ps: seq<Packet>)
    requires forall x <- xs :: Fits(filename, x)
    ensures |ps| == |xs|
  {
    if xs == [] then [] else [ToPacket(filename, xs[0])] + ToPackets(filename, xs[1..])
  }

  lemma {:induction false} PacketsReceived(filename: Text, xs: seq<Sending>)
    requires SEMICOLON !in filename && forall x <- xs :: Fits(filename, x)
    ensures forall p <- ToPackets(filename, xs) :: Sendable(p)
    ensures forall k :: 0 <= k < |xs| ==>
      Receive(ToPackets(filename, xs)[k]) == Some(Receipt(filename, xs[k].from, xs[k].m))
  {
    if xs != [] {
      ReceiveSent(filename, xs[0]);
      PacketsReceived(filename, xs[1..]);
      assert forall k :: 1 <= k < |xs| ==> ToPackets(filename, xs)[k] == ToPackets(filename, xs[1..])[k - 1];
    }
  }

  /**
   A channel delivers what was put into it: however many messages one read returns, splitting
   and parsing gives the same messages, in order, with their file and sender.
  */
  lemma ChannelIsFaithful(filename: Text, xs: seq<Sending>)
    requires SEMICOLON !in filename && forall x <- xs :: Fits(filename, x)
    ensures (forall p <- ToPackets(filename, xs) :: Sendable(p))
    ensures var r := PacketCodec.Split(EncodeAll(ToPackets(filename, xs)));
      && r.Some? && |r.value| == |xs|
      && forall k :: 0 <= k < |xs| ==> Receive(r.value[k]) == Some(Receipt(filename, xs[k].from, xs[k].m))
  {
    PacketsReceived(filename, xs);
    SplitEncodeAll(ToPackets(filename, xs));
  }

  // ---------------------------------------------------------------- the messages of a run

  /** A message and the number that its sender has when it sends it. */
  datatype Stamped = Stamped(ourSeq: nat, m: RA.Message)

  function Stamps(ourSeq: nat, out: seq<RA.Message>): (xs: seq<Stamped>)
    ensures |xs| == |out|
  {
    seq(|out|, l requires 0 <= l < |out| => Stamped(ourSeq, out[l]))
  }

  function Messages(xs: seq<Stamped>): seq<RA.Message> {
    seq(|xs|, k requires 0 <= k < |xs| => xs[k].m)
  }

  lemma MessagesAppend(xs: seq<Stamped>, ys: seq<Stamped>)
    ensures Messages(xs + ys) == Messages(xs) + Messages(ys)
  {
  }

  predicate Current(xs: seq<Stamped>) { forall x <- xs :: x.m.Request? ==> x.m.seqNo == x.ourSeq }

  ghost function StepSent(s: System.State, e: System.Event, i: nat, j: nat): seq<Stamped>
    requires System.Enabled(s, e) && j < |s.nodes|
  {
    if i == System.Actor(e) then Stamps(System.NodeStep(s, e).node.ourSeq, System.NodeStep(s, e).out[j]) else []
  }

  ghost function StepTaken(s: System.State, e: System.Event, i: nat, j: nat): seq<RA.Message>
    requires System.Enabled(s, e)
  {
    if e == System.Deliver(i, j) then [s.net[i][j][0]] else []
  }

  /** All that node i sends to j in a run. */
  ghost function Sent(s: System.State, es: seq<System.Event>, i: nat, j: nat): seq<Stamped>
    requires System.Run(s, es) && j < |s.nodes|
    decreases |es|
  {
    if es == [] then [] else StepSent(s, es[0], i, j) + Sent(System.Apply(s, es[0]), es[1..], i, j)
  }

  /** All that node j takes from i in a run. */
  ghost function Taken(s: System.State, es: seq<System.Event>, i: nat, j: nat): seq<RA.Message>
    requires System.Run(s, es)
    decreases |es|
  {
    if es == [] then [] else StepTaken(s, es[0], i, j) + Taken(System.Apply(s, es[0]), es[1..], i, j)
  }

  /** A REQUEST carries the number that its sender has: the one that REPLYs are stamped with too. */
  lemma StepIsCurrent(s: System.State, e: System.Event, i: nat, j: nat)
    requires System.Enabled(s, e) && j < |s.nodes|
    ensures Current(StepSent(s, e, i, j))
  {
  }

  lemma {:induction false} RunIsCurrent(s: System.State, es: seq<System.Event>, i: nat, j: nat)
    requires System.Run(s, es) && j < |s.nodes|
    ensures Current(Sent(s, es, i, j))
    decreases |es|
  {
    if es != [] {
      StepIsCurrent(s, es[0], i, j);
      RunIsCurrent(System.Apply(s, es[0]), es[1..], i, j);
    }
  }

  lemma StepChannel(s: System.State, e: System.Event, i: nat, j: nat)
    requires System.Enabled(s, e) && i < |s.nodes| && j < |s.nodes|
    ensures System.Shaped(System.Apply(s, e))
    ensures s.net[i][j] + Messages(StepSent(s, e, i, j)) == StepTaken(s, e, i, j) + System.Apply(s, e).net[i][j]
  {
    System.Keeps(s, e);
    assert s.net[i][i] == [];
    if i == System.Actor(e) {
      assert Messages(StepSent(s, e, i, j)) == System.NodeStep(s, e).out[j];
    } else if e == System.Deliver(i, j) {
      assert s.net[i][j] == [s.net[i][j][0]] + s.net[i][j][1..];
    }
  }

  lemma Rejoin<T>(was: seq<T>, now: seq<T>, later: seq<T>, taken: seq<T>, left: seq<T>, more: seq<T>, rest: seq<T>)
    requires was + now == taken + left && left + later == more + rest
    ensures was + (now + later) == taken + more + rest
  {
    assert was + (now + later) == (was + now) + later;
    assert (taken + left) + later == taken + (left + later);
    assert taken + (more + rest) == taken + more + rest;
  }

  /** What was in the channel and what is sent is, in order, what is taken and what remains. */
  lemma {:induction false} ChannelLaw(s: System.State, es: seq<System.Event>, i: nat, j: nat)
    requires System.Shaped(s) && System.Run(s, es) && i < |s.nodes| && j < |s.nodes|
    ensures System.Shaped(System.After(s, es)) && |System.After(s, es).nodes| == |s.nodes|
    ensures s.net[i][j] + Messages(Sent(s, es, i, j)) == Taken(s, es, i, j) + System.After(s, es).net[i][j]
    decreases |es|
  {
    if es == [] {
      assert Messages([]) == [];
    } else {
      var s' := System.Apply(s, es[0]);
      StepChannel(s, es[0], i, j);
      ChannelLaw(s', es[1..], i, j);
      MessagesAppend(StepSent(s, es[0], i, j), Sent(s', es[1..], i, j));
      Rejoin(s.net[i][j], Messages(StepSent(s, es[0], i, j)), Messages(Sent(s', es[1..], i, j)),
             StepTaken(s, es[0], i, j), s'.net[i][j], Taken(s', es[1..], i, j), System.After(s, es).net[i][j]);
    }
  }

  /** The packets that stand for the messages, each with any clock value. */
  predicate SentAs(xs: seq<Sending>, i: nat, j: nat, sent: seq<Stamped>) {
    && |xs| == |sent|
    && forall k :: 0 <= k < |xs| ==> xs[k] == Sending(i, j, sent[k].ourSeq, xs[k].clock, sent[k].m)
  }

  /**
   The bytes that node i writes to j in a run, split and parsed, are REQUESTs and REPLYs of that file
   from i: first those that j has taken, in the order in which it took them, and then those that are
   still in the channel.
  */
  lemma WireCarriesRun(n: nat, es: seq<System.Event>, i: nat, j: nat, filename: Text, xs: seq<Sending>)
    requires System.Run(System.Init(n), es) && i < n && j < n && SEMICOLON !in filename
    requires SentAs(xs, i, j, Sent(System.Init(n), es, i, j)) && forall x <- xs :: Small(filename, x)
    ensures (forall x <- xs :: Fits(filename, x)) && forall p <- ToPackets(filename, xs) :: Sendable(p)
    ensures var t := System.After(System.Init(n), es);
      && System.Shaped(t) && |t.nodes| == n
      && var carried := Taken(System.Init(n), es, i, j) + t.net[i][j];
      var r := PacketCodec.Split(EncodeAll(ToPackets(filename, xs)));
      && r.Some? && |r.value| == |carried|
      && forall k :: 0 <= k < |carried| ==> Receive(r.value[k]) == Some(Receipt(filename, i, carried[k]))
  {
    var s := System.Init(n);
    var sent := Sent(s, es, i, j);
    RunIsCurrent(s, es, i, j);
    forall x | x in xs ensures Fits(filename, x) {
      var k :| 0 <= k < |xs| && xs[k] == x;
      assert sent[k] in sent;
    }
    ChannelLaw(s, es, i, j);
    assert s.net[i][j] + Messages(sent) == Messages(sent);
    ChannelIsFaithful(filename, xs);
  }
}

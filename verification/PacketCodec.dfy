/**
 The binary form of packets: a 20-byte header of five little-endian integers, the first of
 which is the length of the whole message, followed by the message text.
*/
module PacketCodec {
  import opened Bytes

  const HEADER: nat := 20

  /** The message type is its number; decoding accepts any number. */
  datatype Packet = Packet(messageType: Int32, sender: Int32, receiver: Int32, timestamp: Int32, msg: Text)

  /** The length must fit the length field. */
  predicate Sendable(p: Packet) { HEADER + |p.msg| < 0x8000_0000 }

  function MessageLength(p: Packet): nat { HEADER + |p.msg| }

  function Encode(p: Packet): Text
    requires Sendable(p)
  {
    Header(p) + p.msg
  }

  function Header(p: Packet): (h: Text)
    requires Sendable(p)
    ensures |h| == HEADER
  {
    IntToChar(MessageLength(p)) + IntToChar(p.messageType) + IntToChar(p.sender)
    + IntToChar(p.receiver) + IntToChar(p.timestamp)
  }

  /**
   `MessageToPacket` on the bytes that are left.  None stands for a message that is cut off or
   has an impossible length, where the source throws or reads past the data.
  */
  function Decode(d: Text): Option<Packet> {
    if |d| < HEADER then None
    else
      var len := CharToInt(d[0..4]);
      if len < HEADER || len > |d| then None
      else
        Some(Packet(CharToInt(d[4..8]), CharToInt(d[8..12]), CharToInt(d[12..16]), CharToInt(d[16..20]),
                    d[HEADER..len]))
  }

  lemma HeaderFields(p: Packet, rest: Text)
    requires Sendable(p)
    ensures var d := Header(p) + rest;
      && d[0..4] == IntToChar(MessageLength(p))
      && d[4..8] == IntToChar(p.messageType)
      && d[8..12] == IntToChar(p.sender)
      && d[12..16] == IntToChar(p.receiver)
      && d[16..20] == IntToChar(p.timestamp)
  {
  }

  /** Where each field stands: total length, type, sender, receiver and timestamp, and then the text. */
  lemma EncodeLayout(p: Packet)
    requires Sendable(p)
    ensures var d := Encode(p);
      && |d| == 20 + |p.msg| && d[20..] == p.msg
      && CharToInt(d[0..4]) == |d| && CharToInt(d[4..8]) == p.messageType && CharToInt(d[8..12]) == p.sender
      && CharToInt(d[12..16]) == p.receiver && CharToInt(d[16..20]) == p.timestamp
  {
    HeaderFields(p, p.msg);
    IntRoundTrip(MessageLength(p));
    IntRoundTrip(p.messageType);
    IntRoundTrip(p.sender);
    IntRoundTrip(p.receiver);
    IntRoundTrip(p.timestamp);
  }

  lemma DecodeEncode(p: Packet, rest: Text)
    requires Sendable(p)
    ensures Decode(Encode(p) + rest) == Some(p)
  {
    assert Encode(p) + rest == Header(p) + (p.msg + rest);
    HeaderFields(p, p.msg + rest);
    IntRoundTrip(MessageLength(p));
    IntRoundTrip(p.messageType);
    IntRoundTrip(p.sender);
    IntRoundTrip(p.receiver);
    IntRoundTrip(p.timestamp);
    assert (Encode(p) + rest)[HEADER..MessageLength(p)] == p.msg;
  }

  lemma EncodeDecode(d: Text)
    requires Decode(d).Some?
    ensures var p := Decode(d).value;
      Sendable(p) && MessageLength(p) <= |d| && Encode(p) == d[..MessageLength(p)]
  {
    var p := Decode(d).value;
    CharRoundTrip(d[0..4]);
    CharRoundTrip(d[4..8]);
    CharRoundTrip(d[8..12]);
    CharRoundTrip(d[12..16]);
    CharRoundTrip(d[16..20]);
    assert d[..HEADER] == d[0..4] + d[4..8] + d[8..12] + d[12..16] + d[16..20];
    assert d[..MessageLength(p)] == d[..HEADER] + d[HEADER..MessageLength(p)];
  }

  // ---------------------------------------------------------------- streams of packets

  function EncodeAll(ps: seq<Packet>): Text
    requires forall p <- ps :: Sendable(p)
  {
    if ps == [] then [] else Encode(ps[0]) + EncodeAll(ps[1..])
  }

  function Split(d: Text): Option<seq<Packet>>
    decreases |d|
  {
    if d == [] then Some([])
    else match Decode(d)
      case None => None
      case Some(p) =>
        if MessageLength(p) > |d| then None
        else match Split(d[MessageLength(p)..])
          case None => None
          case Some(ps) => Some([p] + ps)
  }

  lemma {:induction false} SplitEncodeAll(ps: seq<Packet>)
    requires forall p <- ps :: Sendable(p)
    ensures Split(EncodeAll(ps)) == Some(ps)
  {
    if ps != [] {
      var d := EncodeAll(ps);
      DecodeEncode(ps[0], EncodeAll(ps[1..]));
      assert d[MessageLength(ps[0])..] == EncodeAll(ps[1..]);
      SplitEncodeAll(ps[1..]);
      assert [ps[0]] + ps[1..] == ps;
    }
  }

  lemma {:induction false} EncodeAllSplit(d: Text)
    requires Split(d).Some?
    ensures (forall p <- Split(d).value :: Sendable(p)) && EncodeAll(Split(d).value) == d
    decreases |d|
  {
    if d != [] {
      var p := Decode(d).value;
      EncodeDecode(d);
      EncodeAllSplit(d[MessageLength(p)..]);
      EncodeFirst(p, Split(d[MessageLength(p)..]).value, d);
    }
  }

  lemma EncodeFirst(p: Packet, ps: seq<Packet>, d: Text)
    requires Sendable(p) && (forall q <- ps :: Sendable(q))
    requires MessageLength(p) <= |d| && Encode(p) == d[..MessageLength(p)]
    requires EncodeAll(ps) == d[MessageLength(p)..]
    ensures (forall q <- [p] + ps :: Sendable(q)) && EncodeAll([p] + ps) == d
  {
  }

  /** Splitting what was read returns the packets ps exactly when it is their encodings, one after another. */
  lemma SplitIffEncoded(d: Text, ps: seq<Packet>)
    ensures Split(d) == Some(ps) <==> (forall p <- ps :: Sendable(p)) && d == EncodeAll(ps)
  {
    if Split(d).Some? {
      EncodeAllSplit(d);
    }
    if forall p <- ps :: Sendable(p) {
      SplitEncodeAll(ps);
    }
  }

  // ---------------------------------------------------------------- the loops over buffers

  /** `intToChar`, into a buffer. */
  method WriteInt(x: Int32, buffer: array<Byte>, offset: nat)
    requires offset + 4 <= buffer.Length
    modifies buffer
    ensures buffer[..] == old(buffer[..offset]) + IntToChar(x) + old(buffer[offset + 4..])
    ensures buffer[..offset] == old(buffer[..offset]) && buffer[offset..offset + 4] == IntToChar(x)
    ensures forall k :: offset + 4 <= k < buffer.Length ==> buffer[k] == old(buffer[k])
  {
    var b := IntToChar(x);
    buffer[offset], buffer[offset + 1], buffer[offset + 2], buffer[offset + 3] := b[0], b[1], b[2], b[3];
  }

  method WriteHeader(p: Packet, buffer: array<Byte>)
    requires Sendable(p) && HEADER <= buffer.Length
    modifies buffer
    ensures buffer[..] == Header(p) + old(buffer[HEADER..])
  {
    WriteInt(MessageLength(p), buffer, 0);
    WriteInt(p.messageType, buffer, 4);
    WriteInt(p.sender, buffer, 8);
    WriteInt(p.receiver, buffer, 12);
    WriteInt(p.timestamp, buffer, 16);
    assert buffer[..HEADER] == Header(p);
    assert buffer[HEADER..] == old(buffer[HEADER..]);
    assert buffer[..] == buffer[..HEADER] + buffer[HEADER..];
  }

  /** `msg.copy`: the first count bytes of the message, after the header. */
  method WriteText(msg: Text, count: nat, buffer: array<Byte>)
    requires count <= |msg| && HEADER + count <= buffer.Length
    modifies buffer
    ensures buffer[..] == old(buffer[..HEADER]) + msg[..count] + old(buffer[HEADER + count..])
  {
    for k := 0 to count
      invariant buffer[..] == old(buffer[..HEADER]) + msg[..k] + old(buffer[HEADER + k..])
    {
      buffer[HEADER + k] := msg[k];
    }
  }

  /**
   `toMessage`: write as much of the packet as fits and return how many bytes do not.  The
   header must fit.
  */
  method ToMessage(p: Packet, buffer: array<Byte>) returns (remaining: nat)
    requires Sendable(p) && HEADER <= buffer.Length
    modifies buffer
    ensures var written := if |Encode(p)| <= buffer.Length then |Encode(p)| else buffer.Length;
      && remaining == |Encode(p)| - written
      && buffer[..] == Encode(p)[..written] + old(buffer[written..])
  {
    WriteHeader(p, buffer);
    var available := buffer.Length - HEADER;
    var count := if available >= |p.msg| then |p.msg| else available;
    ghost var tail := buffer[HEADER + count..];
    assert buffer[..HEADER] == Header(p) && tail == old(buffer[HEADER + count..]);
    WriteText(p.msg, count, buffer);
    assert Encode(p)[..HEADER + count] == Header(p) + p.msg[..count];
    remaining := |p.msg| - count;
  }

  function Prepend(ps: seq<Packet>, r: Option<seq<Packet>>): Option<seq<Packet>> {
    match r
    case None => None
    case Some(qs) => Some(ps + qs)
  }

  lemma PrependNone(ps: seq<Packet>, r: Option<seq<Packet>>)
    ensures Prepend([], r) == r && Prepend(ps, Some([])) == Some(ps)
  {
    assert ps + [] == ps;
    if r.Some? {
      assert [] + r.value == r.value;
    }
  }

  lemma PrependOne(ps: seq<Packet>, p: Packet, r: Option<seq<Packet>>)
    ensures Prepend(ps, Prepend([p], r)) == Prepend(ps + [p], r)
  {
    if r.Some? {
      assert ps + ([p] + r.value) == ps + [p] + r.value;
    }
  }

  /** `splitReadDataFromSocket`, on the bytes that were read. */
  method SplitReadData(data: Text) returns (res: Option<seq<Packet>>)
    ensures res == Split(data)
  {
    var numRead := 0;
    var packets: seq<Packet> := [];
    assert data[0..] == data;
    PrependNone([], Split(data));
    while numRead < |data|
      invariant 0 <= numRead <= |data|
      invariant Split(data) == Prepend(packets, Split(data[numRead..]))
    {
      var rest := data[numRead..];
      match Decode(rest) {
        case None => return None;
        case Some(p) =>
          EncodeDecode(rest);
          PrependOne(packets, p, Split(rest[MessageLength(p)..]));
          packets := packets + [p];
          numRead := numRead + MessageLength(p);
          assert rest[MessageLength(p)..] == data[numRead..];
      }
    }
    PrependNone(packets, None);
    return Some(packets);
  }
}

/**
 What a client does inside the critical section of a file, and what a server does with its
 requests.
*/
module ReplicaNode {
  import opened Bytes
  import TextCodec
  import FileText

  datatype ToServer = ReadRequest | WriteRequest(line: Text)
  datatype ToClient = ReadReply(line: Option<Text>) | WriteReply

  /** The client's current request: nothing sent yet, or what is known of the servers' answers. */
  datatype Op =
    | Idle
    | Writing(line: Text, done: seq<bool>)
    | Reading(server: nat, result: Option<Option<Text>>)

  function StartWrite(line: Text, nServers: nat): Op {
    Writing(line, seq(nServers, _ => false))
  }

  /** The waits of `requestRead` and `requestWrite` are over. */
  predicate Finished(op: Op) {
    match op
    case Idle => false
    case Writing(_, done) => forall v :: 0 <= v < |done| ==> done[v]
    case Reading(_, result) => result.Some?
  }

  function TakeAnswer(op: Op, v: nat, m: ToClient): Op {
    match m
    case WriteReply => if op.Writing? && v < |op.done| then op.(done := op.done[v := true]) else op
    case ReadReply(line) => if op.Reading? then op.(result := Some(line)) else op
  }

  datatype Served = Served(text: Text, answer: ToClient)

  function Serve(text: Text, m: ToServer): Served {
    match m
    case WriteRequest(line) => Served(FileText.Append(text, line), WriteReply)
    case ReadRequest => Served(text, ReadReply(FileText.LastLine(text)))
  }

  /** A WRITE to the file: the parts at `#` are its name and a line, and of that the parts at `,` are the numbers. */
  predicate ReadsAsWrite(request: Text, filename: Text, id: int, timestamp: int) {
    var tokens := TextCodec.Split(request, 35);
    && |tokens| == 2 && tokens[0] == filename
    && var numbers := TextCodec.Split(tokens[1], 44);
       |numbers| == 2 && TextCodec.Atoi(numbers[0]) == id && TextCodec.Atoi(numbers[1]) == timestamp
  }

  lemma WriteReadsAsWrite(filename: Text, id: int, timestamp: int)
    requires 35 !in filename
    ensures ReadsAsWrite(TextCodec.PrintWrite(filename, TextCodec.Line(id, timestamp)), filename, id, timestamp)
  {
    TextCodec.WriteReads(filename, id, timestamp);
  }

  lemma RequestText(filename: Text, id: int, timestamp: int)
    ensures TextCodec.PrintWrite(filename, TextCodec.Line(id, timestamp))
         == filename + [35] + TextCodec.ToString(id) + [44] + TextCodec.ToString(timestamp)
  {
  }

  class Server {
    var files: map<Text, Text>

    constructor (files: map<Text, Text>)
      ensures this.files == files
    {
      this.files := files;
    }

    // The reply to READ is the last line, or the empty text when there is no such file.
    method HandleReadRequest(filename: Text) returns (answer: ToClient)
      ensures filename in files ==> answer == Serve(files[filename], ReadRequest).answer
      ensures filename !in files ==> answer == ReadReply(Some([]))
      ensures filename in files && NUL !in files[filename] ==>
        answer == ReadReply(FileText.LastNonBlank(TextCodec.Split(files[filename], 10)))
    {
      if filename in files {
        var line := FileText.ReadLastLine(files[filename]);
        answer := ReadReply(line);
        if NUL !in files[filename] { FileText.LastLineIsLastNonBlank(files[filename]); }
      } else {
        answer := ReadReply(Some([]));
      }
    }

    // WRITE appends to the file it names, which is created if need be, and to no other.
    method HandleWriteRequest(msg: Text) returns (answer: ToClient)
      requires TextCodec.ParseWrite(msg).Some?
      modifies this
      ensures var (name, line) := TextCodec.ParseWrite(msg).value;
        var s := Serve(if name in old(files) then old(files)[name] else [], WriteRequest(line));
        files == old(files)[name := s.text] && answer == s.answer
      ensures var tokens := TextCodec.Split(msg, 35);
        && |tokens| >= 2 && answer == WriteReply
        && files == old(files)[tokens[0] := (if tokens[0] in old(files) then old(files)[tokens[0]] else [])
                                            + tokens[1] + [10]]
    {
      var tokens := TextCodec.SplitString(msg, HASH);
      var filename, contentToWrite := tokens[0], tokens[1];
      var text := if filename in files then files[filename] else [];
      files := files[filename := text + contentToWrite + [NEWLINE]];
      answer := WriteReply;
    }
  }

  // The flags of a client, and the loops that send requests and test for the answers.
  class Client {
    const id: Int32
    const serverDoneWriteRequest: array<bool>
    var serverDoneReadRequest: bool
    var readResult: Option<Text>

    constructor (id: Int32, nServers: nat)
      ensures this.id == id && serverDoneWriteRequest.Length == nServers
      ensures fresh(serverDoneWriteRequest)
    {
      this.id := id;
      serverDoneWriteRequest := new bool[nServers];
      serverDoneReadRequest := false;
      readResult := None;
    }

    ghost function WriteView(line: Text): Op
      reads serverDoneWriteRequest
    {
      Writing(line, serverDoneWriteRequest[..])
    }

    ghost function ReadView(server: nat): Op
      reads this
    {
      Reading(server, if serverDoneReadRequest then Some(readResult) else None)
    }

    method RequestWrite(filename: Text, timestamp: Int32) returns (out: seq<Text>)
      modifies serverDoneWriteRequest
      ensures WriteView(TextCodec.Line(id, timestamp))
           == StartWrite(TextCodec.Line(id, timestamp), serverDoneWriteRequest.Length)
      ensures out == seq(serverDoneWriteRequest.Length,
                         _ => TextCodec.PrintWrite(filename, TextCodec.Line(id, timestamp)))
      ensures forall k :: 0 <= k < serverDoneWriteRequest.Length ==> !serverDoneWriteRequest[k]
      ensures |out| == serverDoneWriteRequest.Length && forall k :: 0 <= k < |out| ==>
        out[k] == filename + [35] + TextCodec.ToString(id) + [44] + TextCodec.ToString(timestamp)
      ensures 35 !in filename ==> forall k :: 0 <= k < |out| ==> ReadsAsWrite(out[k], filename, id, timestamp)
    {
      var nServers := serverDoneWriteRequest.Length;
      for i := 0 to nServers
        invariant forall k :: 0 <= k < i ==> !serverDoneWriteRequest[k]
      {
        serverDoneWriteRequest[i] := false;
      }
      var writeRequest := filename + [HASH] + TextCodec.ToString(id) + [COMMA] + TextCodec.ToString(timestamp);
      RequestText(filename, id, timestamp);
      out := [];
      for i := 0 to nServers
        invariant |out| == i && forall k :: 0 <= k < i ==> out[k] == writeRequest
      {
        out := out + [writeRequest];
      }
      if HASH !in filename { WriteReadsAsWrite(filename, id, timestamp); }
    }

    method ReceiveWriteResult(server: nat, ghost line: Text)
      requires server < serverDoneWriteRequest.Length
      modifies serverDoneWriteRequest
      ensures WriteView(line) == TakeAnswer(old(WriteView(line)), server, WriteReply)
      ensures serverDoneWriteRequest[..] == old(serverDoneWriteRequest[..])[server := true]
    {
      serverDoneWriteRequest[server] := true;
    }

    method CheckAllServersDoneWriteRequest(ghost line: Text) returns (done: bool)
      ensures done <==> Finished(WriteView(line))
      ensures done <==> forall k :: 0 <= k < serverDoneWriteRequest.Length ==> serverDoneWriteRequest[k]
    {
      for i := 0 to serverDoneWriteRequest.Length
        invariant forall k :: 0 <= k < i ==> serverDoneWriteRequest[k]
      {
        if !serverDoneWriteRequest[i] { return false; }
      }
      return true;
    }

    method RequestRead(filename: Text, ghost server: nat) returns (out: Text)
      modifies this
      ensures ReadView(server) == Reading(server, None)
      ensures !serverDoneReadRequest && out == filename
    {
      out := filename;
      serverDoneReadRequest := false;
    }

    method ReceiveReadResult(response: Option<Text>, ghost server: nat)
      modifies this
      ensures ReadView(server) == TakeAnswer(old(ReadView(server)), server, ReadReply(response))
      ensures serverDoneReadRequest && readResult == response
    {
      readResult := response;
      serverDoneReadRequest := true;
    }
  }
}

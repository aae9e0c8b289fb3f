/**
 The text of a replica file: appending a line, and reading the last one through a buffer of
 1024 bytes that `fgets` fills piece by piece.
*/
module FileText {
  import opened Bytes
  import TextCodec

  // fgets(buffer, 1024, f) stores 1023 bytes at most.
  const LIMIT: nat := 1023

  /** How many bytes one `fgets` takes: up to and including a newline, and no more than the limit. */
  function ChunkLength(text: Text, limit: nat): (k: nat)
    ensures k <= |text| && k <= limit
    ensures text != [] && limit > 0 ==> k > 0
  {
    if text == [] || limit == 0 then 0
    else if text[0] == NEWLINE then 1
    else 1 + ChunkLength(text[1..], limit - 1)
  }

  /** What C string functions see of a buffer. */
  function CString(b: Text): (s: Text)
    ensures s <= b && NUL !in s
  {
    if b == [] || b[0] == NUL then [] else [b[0]] + CString(b[1..])
  }

  /** The loop of `_readLastLineOfFile`; None is the buffer nothing was copied to. */
  function Scan(text: Text, prev: Option<Text>): Option<Text>
    decreases |text|
  {
    if text == [] then prev
    else
      var k := ChunkLength(text, LIMIT);
      var s := CString(text[..k]);
      if s == [] then prev
      else if s[0] == NEWLINE then Scan(text[k..], prev)
      else Scan(text[k..], Some(s))
  }

  function WithoutNewline(s: Text): Text {
    if s != [] && s[|s| - 1] == NEWLINE then s[..|s| - 1] else s
  }

  /** None when no line was found: the source then returns an uninitialised buffer. */
  function LastLine(text: Text): Option<Text> {
    match Scan(text, None)
    case None => None
    case Some(s) => Some(WithoutNewline(s))
  }

  /** `_writeToFile` opens for appending and adds a newline. */
  function Append(text: Text, line: Text): Text { text + line + [NEWLINE] }

  /** Every line is terminated, and there is no NUL. */
  predicate WholeLines(text: Text) {
    NUL !in text && (text != [] ==> text[|text| - 1] == NEWLINE)
  }

  predicate PlainLine(line: Text) {
    line != [] && NEWLINE !in line && NUL !in line
  }

  // ---------------------------------------------------------------- the loops

  method Fgets(text: Text, start: nat) returns (next: nat)
    requires start <= |text|
    ensures next == start + ChunkLength(text[start..], LIMIT)
  {
    next := start;
    var stop := false;
    assert text[start..][0..] == text[start..];
    while next < |text| && next - start < LIMIT && !stop
      invariant start <= next <= |text| && next - start <= LIMIT
      invariant ChunkLength(text[start..], LIMIT) == next - start +
        (if stop then 0 else ChunkLength(text[next..], LIMIT - (next - start)))
      decreases |text| - next
    {
      stop := text[next] == NEWLINE;
      assert text[next..][1..] == text[next + 1..];
      next := next + 1;
    }
  }

  lemma {:induction false} CStringIs(b: Text, k: nat)
    requires k <= |b| && NUL !in b[..k] && (k < |b| ==> b[k] == NUL)
    ensures CString(b) == b[..k]
  {
    if k > 0 {
      assert b[0] in b[..k];
      assert b[1..][..k - 1] == b[1..k];
      assert b[..k] == [b[0]] + b[1..k];
      CStringIs(b[1..], k - 1);
    }
  }

  method StrCpy(b: Text) returns (s: Text)
    ensures s == CString(b)
  {
    s := [];
    while |s| < |b| && b[|s|] != NUL
      invariant |s| <= |b| && s == b[..|s|] && NUL !in s
      decreases |b| - |s|
    {
      s := s + [b[|s|]];
    }
    CStringIs(b, |s|);
  }

  method ReadLastLine(text: Text) returns (line: Option<Text>)
    ensures line == LastLine(text)
  {
    var prev: Option<Text> := None;
    var pos := 0;
    assert text[0..] == text;
    while pos < |text|
      invariant 0 <= pos <= |text|
      invariant Scan(text, None) == Scan(text[pos..], prev)
      invariant prev.Some? ==> prev.value != []
      decreases |text| - pos
    {
      ghost var rest := text[pos..];
      var next := Fgets(text, pos);
      assert text[pos..next] == rest[..next - pos] && rest[next - pos..] == text[next..];
      var buffer := StrCpy(text[pos..next]);
      if |buffer| == 0 { break; }
      pos := next;
      if buffer[0] == NEWLINE { continue; }
      prev := Some(buffer);
    }
    match prev {
      case None => line := None;
      case Some(s) => line := Some(if s[|s| - 1] == NEWLINE then s[..|s| - 1] else s);
    }
  }

  // ---------------------------------------------------------------- reading back what was appended

  lemma {:induction false} CStringPlain(b: Text)
    requires NUL !in b
    ensures CString(b) == b
  {
    if b != [] {
      assert b[0] in b;
      CStringPlain(b[1..]);
    }
  }

  lemma {:induction false} ChunkOfEarlier(earlier: Text, tail: Text, limit: nat)
    requires earlier != [] && earlier[|earlier| - 1] == NEWLINE
    ensures ChunkLength(earlier + tail, limit) == ChunkLength(earlier, limit)
  {
    if limit > 0 && earlier[0] != NEWLINE {
      assert (earlier + tail)[1..] == earlier[1..] + tail;
      ChunkOfEarlier(earlier[1..], tail, limit - 1);
    }
  }

  lemma {:induction false} ChunkOfLine(line: Text, limit: nat)
    requires NEWLINE !in line
    ensures ChunkLength(line + [NEWLINE], limit) == if |line| < limit then |line| + 1 else limit
  {
    if line != [] && limit > 0 {
      assert (line + [NEWLINE])[1..] == line[1..] + [NEWLINE];
      assert (line + [NEWLINE])[0] in line;
      ChunkOfLine(line[1..], limit - 1);
    }
  }

  /** After whole lines the scan goes on with what they have left in the buffer. */
  lemma {:induction false} ScanEarlier(earlier: Text, tail: Text, prev: Option<Text>)
    requires WholeLines(earlier)
    ensures Scan(earlier + tail, prev) == Scan(tail, Scan(earlier, prev))
    decreases |earlier|
  {
    if earlier == [] {
      assert earlier + tail == tail;
    } else {
      var text := earlier + tail;
      var k := ChunkLength(earlier, LIMIT);
      ChunkOfEarlier(earlier, tail, LIMIT);
      assert text[..k] == earlier[..k] && text[k..] == earlier[k..] + tail;
      CStringPlain(earlier[..k]);
      ScanEarlier(earlier[k..], tail, if earlier[0] == NEWLINE then prev else Some(earlier[..k]));
    }
  }

  lemma ScanLine(line: Text, prev: Option<Text>)
    requires PlainLine(line) && |line| <= LIMIT
    ensures Scan(line + [NEWLINE], prev) == Some(if |line| < LIMIT then line + [NEWLINE] else line)
  {
    var text := line + [NEWLINE];
    ChunkOfLine(line, LIMIT);
    assert text[0] in line;
    if |line| < LIMIT {
      CStringPlain(text);
      assert text[..|text|] == text && text[|text|..] == [];
    } else {
      CStringPlain(line);
      assert text[..LIMIT] == line && text[LIMIT..] == [NEWLINE];
      ScanBlank(Some(line));
    }
  }

  lemma ScanBlank(prev: Option<Text>)
    ensures Scan([NEWLINE], prev) == prev
  {
  }

  lemma {:induction false} ScanIsShort(text: Text, prev: Option<Text>)
    requires prev.Some? ==> |prev.value| <= LIMIT
    ensures Scan(text, prev).Some? ==> |Scan(text, prev).value| <= LIMIT
    decreases |text|
  {
    if text != [] {
      var k := ChunkLength(text, LIMIT);
      var s := CString(text[..k]);
      if s != [] {
        ScanIsShort(text[k..], if s[0] == NEWLINE then prev else Some(s));
      }
    }
  }

  /**
   After appending a plain line to whole lines, reading the last line returns it exactly when
   it has at most 1023 bytes; blank and over-long earlier lines do not matter.
  */
  lemma ReadAfterAppendIff(earlier: Text, line: Text)
    requires WholeLines(earlier) && PlainLine(line)
    ensures LastLine(Append(earlier, line)) == Some(line) <==> |line| <= 1023
    ensures WholeLines(Append(earlier, line))
  {
    var tail := line + [NEWLINE];
    assert Append(earlier, line) == earlier + tail;
    ScanIsShort(earlier + tail, None);
    if |line| <= LIMIT {
      ScanEarlier(earlier, tail, None);
      ScanLine(line, Scan(earlier, None));
      assert (line + [NEWLINE])[..|line|] == line;
      assert line[|line| - 1] in line;
    }
  }

  // ---------------------------------------------------------------- what the last line is

  /** What is kept of a long line: its last piece, when pieces of 1023 bytes are cut off in front. */
  function LastPiece(line: Text): Text {
    if |line| <= 1023 then line else LastPiece(line[1023..])
  }

  /** The last line that is not blank, or its last piece. */
  function LastNonBlank(lines: seq<Text>): Option<Text> {
    if lines == [] then None
    else if lines[|lines| - 1] != [] then Some(LastPiece(lines[|lines| - 1]))
    else LastNonBlank(lines[..|lines| - 1])
  }

  lemma {:induction false} LastNonBlankFirst(line: Text, lines: seq<Text>)
    ensures LastNonBlank([line] + lines) ==
      if LastNonBlank(lines).Some? then LastNonBlank(lines) else if line == [] then None else Some(LastPiece(line))
  {
    var all := [line] + lines;
    if lines == [] {
      assert all[..|all| - 1] == [];
    } else {
      assert all[..|all| - 1] == [line] + lines[..|lines| - 1];
      LastNonBlankFirst(line, lines[..|lines| - 1]);
    }
  }

  function Stripped(s: Option<Text>): Option<Text> {
    match s
    case None => None
    case Some(t) => Some(WithoutNewline(t))
  }

  function OrElse(a: Option<Text>, b: Option<Text>): Option<Text> { if a.Some? then a else b }

  /** One `fgets` on a text that does not begin with a newline takes the line, or 1023 bytes of it. */
  lemma {:induction false} ChunkIsLine(text: Text, limit: nat)
    requires limit > 0
    ensures var p := TextCodec.Find(text, NEWLINE);
      ChunkLength(text, limit) == if p < limit then (if p < |text| then p + 1 else p) else limit
  {
    if text != [] && text[0] != NEWLINE && limit > 1 {
      ChunkIsLine(text[1..], limit - 1);
    }
  }

  /** A line of more than 1023 bytes, or of exactly 1023, whose first piece has been cut off. */
  lemma CutOff(text: Text)
    requires TextCodec.Find(text, NEWLINE) >= 1023
    ensures var p := TextCodec.Find(text, NEWLINE);
      && 1023 <= |text| && TextCodec.Find(text[1023..], NEWLINE) == p - 1023
      && text[1023..][..p - 1023] == text[..p][1023..]
      && (p < |text| ==> text[1023..][p - 1023 + 1..] == text[p + 1..])
  {
    var p := TextCodec.Find(text, NEWLINE);
    assert text[1023..][..p - 1023] == text[..p][1023..];
    TextCodec.FindIs(text[1023..], NEWLINE, p - 1023);
  }

  lemma {:induction false} ScanIsLastNonBlank(text: Text, prev: Option<Text>)
    requires NUL !in text
    ensures Stripped(Scan(text, prev)) == OrElse(LastNonBlank(TextCodec.Split(text, NEWLINE)), Stripped(prev))
    decreases |text|
  {
    if text != [] {
      var p, k := TextCodec.Find(text, NEWLINE), ChunkLength(text, LIMIT);
      ChunkIsLine(text, LIMIT);
      CStringPlain(text[..k]);
      TextCodec.SplitsAt(text, NEWLINE, p);
      ScanIsLastNonBlank(text[k..], if p == 0 then prev else Some(text[..k]));
      if p < LIMIT {
        LineIsTaken(text, prev);
      } else {
        PieceIsTaken(text, prev);
      }
    }
  }

  /** The step of the induction for a line that fits the buffer. */
  lemma LineIsTaken(text: Text, prev: Option<Text>)
    requires text != [] && NUL !in text && TextCodec.Find(text, NEWLINE) < LIMIT
    requires var p, k := TextCodec.Find(text, NEWLINE), ChunkLength(text, LIMIT);
      Stripped(Scan(text[k..], if p == 0 then prev else Some(text[..k])))
        == OrElse(LastNonBlank(TextCodec.Split(text[k..], NEWLINE)), Stripped(if p == 0 then prev else Some(text[..k])))
    ensures Stripped(Scan(text, prev)) == OrElse(LastNonBlank(TextCodec.Split(text, NEWLINE)), Stripped(prev))
  {
    var p, k := TextCodec.Find(text, NEWLINE), ChunkLength(text, LIMIT);
    ChunkIsLine(text, LIMIT);
    CStringPlain(text[..k]);
    TextCodec.SplitsAt(text, NEWLINE, p);
    var rest := if p < |text| then TextCodec.Split(text[p + 1..], NEWLINE) else [];
    assert TextCodec.Split(text[k..], NEWLINE) == rest;
    LastNonBlankFirst(text[..p], rest);
    if p > 0 {
      WithoutItsNewline(text, p, k);
      assert text[..p] != [] && LastPiece(text[..p]) == text[..p];
    } else {
      assert text[..p] == [] && text[..k][0] == NEWLINE;
    }
  }

  lemma WithoutItsNewline(text: Text, p: nat, k: nat)
    requires 0 < p <= |text| && NEWLINE !in text[..p] && (p < |text| ==> text[p] == NEWLINE)
    requires k == if p < |text| then p + 1 else p
    ensures WithoutNewline(text[..k]) == text[..p] && text[..k][0] != NEWLINE
  {
    assert text[..p][0] in text[..p];
    if p == |text| { assert text[..k][k - 1] in text[..p]; } else { assert text[..k][..k - 1] == text[..p]; }
  }

  /** And for one that does not. */
  lemma PieceIsTaken(text: Text, prev: Option<Text>)
    requires NUL !in text && TextCodec.Find(text, NEWLINE) >= LIMIT
    requires var k := ChunkLength(text, LIMIT);
      Stripped(Scan(text[k..], Some(text[..k])))
        == OrElse(LastNonBlank(TextCodec.Split(text[k..], NEWLINE)), Stripped(Some(text[..k])))
    ensures Stripped(Scan(text, prev)) == OrElse(LastNonBlank(TextCodec.Split(text, NEWLINE)), Stripped(prev))
  {
    var p, k := TextCodec.Find(text, NEWLINE), ChunkLength(text, LIMIT);
    ChunkIsLine(text, LIMIT);
    CutOff(text);
    CStringPlain(text[..k]);
    TextCodec.SplitsAt(text, NEWLINE, p);
    assert text[..k][k - 1] in text[..p];
    assert WithoutNewline(text[..k]) == text[..k];
    var line := text[..p];
    var rest := if p < |text| then TextCodec.Split(text[p + 1..], NEWLINE) else [];
    LastNonBlankFirst(line, rest);
    if text[k..] != [] {
      TextCodec.SplitsAt(text[k..], NEWLINE, TextCodec.Find(text[k..], NEWLINE));
      LastNonBlankFirst(line[1023..], rest);
    } else {
      assert line == text[..k] && rest == [];
    }
  }

  /**
   The last line of a text without NUL: split it at the newlines and take the last part that is not empty;
   of a part of more than 1023 bytes the last piece.  There is none exactly when all parts are empty.
  */
  lemma LastLineIsLastNonBlank(text: Text)
    requires NUL !in text
    ensures LastLine(text) == LastNonBlank(TextCodec.Split(text, 10))
  {
    ScanIsLastNonBlank(text, None);
  }

  lemma {:induction false} ScanBlanks(blanks: Text, prev: Option<Text>)
    requires forall b <- blanks :: b == NEWLINE
    ensures Scan(blanks, prev) == prev
    decreases |blanks|
  {
    if blanks != [] {
      assert blanks[0] in blanks && ChunkLength(blanks, LIMIT) == 1;
      CStringPlain(blanks[..1]);
      assert forall b <- blanks[1..] :: b in blanks;
      ScanBlanks(blanks[1..], prev);
    }
  }

  /** Blank lines at the end are skipped, however many there are. */
  lemma BlankLinesAreSkipped(earlier: Text, line: Text, blanks: Text)
    requires WholeLines(earlier) && PlainLine(line) && |line| <= 1023 && forall b <- blanks :: b == 10
    ensures LastLine(earlier + line + [10] + blanks) == Some(line)
  {
    ReadAfterAppendIff(earlier, line);
    ScanEarlier(earlier + line + [NEWLINE], blanks, None);
    ScanBlanks(blanks, Scan(earlier + line + [NEWLINE], None));
  }

  /** A NUL at the start of a line ends the reading: what follows is not seen. */
  lemma NulEndsFile(earlier: Text, rest: Text)
    requires WholeLines(earlier)
    ensures LastLine(earlier + [0] + rest) == LastLine(earlier)
  {
    var tail := [NUL] + rest;
    assert earlier + [0] + rest == earlier + tail;
    ScanEarlier(earlier, tail, None);
    assert tail[..ChunkLength(tail, LIMIT)][0] == NUL;
  }
}

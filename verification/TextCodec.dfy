/**
 The text inside packets: `splitString`, decimal numbers, the payload `filename;ME#seq` of the
 mutual exclusion messages, the payload `filename#id,timestamp` of a WRITE, and the list of
 file names of an ENQUIRY.
*/
module TextCodec {
  import opened Bytes

  // ---------------------------------------------------------------- splitString

  /** The position of the first delimiter, or the length. */
  function Find<T(==)>(s: seq<T>, d: T): (k: nat)
    ensures k <= |s| && d !in s[..k] && (k < |s| ==> s[k] == d)
  {
    if s == [] || s[0] == d then 0
    else
      assert s[..1 + Find(s[1..], d)] == [s[0]] + s[1..][..Find(s[1..], d)];
      1 + Find(s[1..], d)
  }

  /** Repeated `getline`: a delimiter at the very end does not start another token. */
  function Split<T(==)>(s: seq<T>, d: T): seq<seq<T>>
    decreases |s|
  {
    if s == [] then []
    else
      var k := Find(s, d);
      if k == |s| then [s] else [s[..k]] + Split(s[k + 1..], d)
  }

  lemma FindIs<T>(s: seq<T>, d: T, k: nat)
    requires k <= |s| && d !in s[..k] && (k < |s| ==> s[k] == d)
    ensures Find(s, d) == k
  {
  }

  // One `getline` from position start: where its delimiter is.
  method FindDelimiter<T(==)>(s: seq<T>, d: T, start: nat) returns (k: nat)
    requires start <= |s|
    ensures start <= k <= |s| && k - start == Find(s[start..], d)
  {
    k := start;
    while k < |s| && s[k] != d
      invariant start <= k <= |s|
      invariant d !in s[start..k]
    {
      k := k + 1;
    }
    assert s[start..][..k - start] == s[start..k];
    FindIs(s[start..], d, k - start);
  }

  lemma {:induction false} SplitStep<T>(s: seq<T>, d: T, k: nat)
    requires s != [] && k == Find(s, d)
    ensures k < |s| ==> Split(s, d) == [s[..k]] + Split(s[k + 1..], d)
    ensures k == |s| ==> Split(s, d) == [s]
  {
    if k == |s| {
      assert Split(s, d) == [s];
    } else {
      assert Split(s, d) == [s[..k]] + Split(s[k + 1..], d);
    }
  }

  lemma SplitsAt<T>(s: seq<T>, d: T, k: nat)
    requires s != [] && k == Find(s, d)
    ensures Split(s, d) == [s[..k]] + if k < |s| then Split(s[k + 1..], d) else []
  {
    SplitStep(s, d, k);
    if k == |s| {
      assert s[..k] == s;
      assert [s] + [] == [s];
    }
  }

  lemma Regroup<T>(a: seq<T>, b: T, c: seq<T>)
    ensures a + ([b] + c) == a + [b] + c
  {
  }

  /** One `getline` that starts at position start and finds its delimiter, or the end, at k. */
  lemma SplitAt<T>(s: seq<T>, d: T, start: nat, k: nat)
    requires start <= k <= |s| && start < |s| && k - start == Find(s[start..], d)
    ensures k < |s| ==> Split(s[start..], d) == [s[start..k]] + Split(s[k + 1..], d)
    ensures k == |s| ==> Split(s[start..], d) == [s[start..k]]
  {
    var rest := s[start..];
    SplitStep(rest, d, k - start);
    assert rest[..k - start] == s[start..k];
    if k < |s| {
      assert rest[k - start + 1..] == s[k + 1..];
    } else {
      assert s[start..k] == rest;
    }
  }

  method SplitString<T(==)>(s: seq<T>, d: T) returns (tokens: seq<seq<T>>)
    ensures tokens == Split(s, d)
  {
    tokens := [];
    var start := 0;
    ghost var todo := Split(s, d);
    assert s[0..] == s;
    while start < |s|
      invariant 0 <= start <= |s|
      invariant todo == Split(s[start..], d)
      invariant tokens + todo == Split(s, d)
    {
      var k := FindDelimiter(s, d, start);
      SplitAt(s, d, start, k);
      todo := if k < |s| then Split(s[k + 1..], d) else [];
      Regroup(tokens, s[start..k], todo);
      tokens := tokens + [s[start..k]];
      start := if k < |s| then k + 1 else k;
    }
  }

  function Join<T(==)>(tokens: seq<seq<T>>, d: T): seq<T> {
    if tokens == [] then []
    else if |tokens| == 1 then tokens[0]
    else tokens[0] + [d] + Join(tokens[1..], d)
  }

  lemma SplitFirst<T>(a: seq<T>, d: T, rest: seq<T>)
    requires d !in a
    ensures Split(a + [d] + rest, d) == [a] + Split(rest, d)
  {
    var s := a + [d] + rest;
    assert s[..|a|] == a;
    FindIs(s, d, |a|);
    assert s[|a| + 1..] == rest;
  }

  lemma SplitNone<T>(a: seq<T>, d: T)
    requires d !in a
    ensures Split(a, d) == if a == [] then [] else [a]
  {
  }

  predicate Splittable<T(==)>(tokens: seq<seq<T>>, d: T) {
    && (forall t <- tokens :: d !in t)
    && (tokens != [] ==> tokens[|tokens| - 1] != [])
  }

  lemma {:induction false} SplitJoin<T>(tokens: seq<seq<T>>, d: T)
    requires Splittable(tokens, d)
    ensures Split(Join(tokens, d), d) == tokens
  {
    if tokens != [] {
      assert tokens[0] in tokens;
      if |tokens| == 1 {
        SplitNone(tokens[0], d);
      } else {
        assert tokens[1..][|tokens| - 2] == tokens[|tokens| - 1];
        SplitJoin(tokens[1..], d);
        SplitFirst(tokens[0], d, Join(tokens[1..], d));
      }
    }
  }

  lemma {:induction false} SplitDropsLastEmpty<T>(tokens: seq<seq<T>>, d: T)
    requires tokens != [] && (forall t <- tokens :: d !in t) && tokens[|tokens| - 1] == []
    ensures |Split(Join(tokens, d), d)| == |tokens| - 1
  {
    assert tokens[0] in tokens;
    if |tokens| > 1 {
      assert tokens[1..][|tokens| - 2] == tokens[|tokens| - 1];
      SplitDropsLastEmpty(tokens[1..], d);
      SplitFirst(tokens[0], d, Join(tokens[1..], d));
    }
  }

  lemma {:induction false} TokensAreFree<T>(s: seq<T>, d: T)
    ensures forall t <- Split(s, d) :: d !in t
    decreases |s|
  {
    if s != [] {
      var k := Find(s, d);
      if k == |s| {
        assert s[..k] == s;
      } else {
        TokensAreFree(s[k + 1..], d);
      }
    }
  }

  /**
   Joining and splitting gives the list back exactly when no element contains the delimiter
   and the last one, if any, is not empty.
  */
  lemma SplitJoinIff<T>(tokens: seq<seq<T>>, d: T)
    ensures Split(Join(tokens, d), d) == tokens <==> Splittable(tokens, d)
  {
    TokensAreFree(Join(tokens, d), d);
    if Splittable(tokens, d) {
      SplitJoin(tokens, d);
    } else if forall t <- tokens :: d !in t {
      SplitDropsLastEmpty(tokens, d);
    }
  }

  /** The delimiter stands between any two elements that follow each other, and nowhere else. */
  lemma {:induction false} JoinLast<T>(tokens: seq<seq<T>>, last: seq<T>, d: T)
    ensures Join([last], d) == last
    ensures tokens != [] ==> Join(tokens + [last], d) == Join(tokens, d) + [d] + last
  {
    if |tokens| > 1 {
      assert (tokens + [last])[1..] == tokens[1..] + [last];
      JoinLast(tokens[1..], last, d);
    } else if tokens != [] {
      assert (tokens + [last])[1..] == [last];
    }
  }

  /** Splitting loses nothing but a delimiter at the very end. */
  lemma {:induction false} JoinSplit<T>(s: seq<T>, d: T)
    ensures s == Join(Split(s, d), d) + Trailing(s, d)
    ensures s != [] ==> Split(s, d) != []
    decreases |s|
  {
    if s != [] {
      var k := Find(s, d);
      SplitStep(s, d, k);
      if k < |s| {
        var rest := s[k + 1..];
        JoinSplit(rest, d);
        JoinFirst(s[..k], Split(rest, d), d);
        Reassociate(s, d, k, Join(Split(rest, d), d), Trailing(rest, d));
      } else {
        assert s[|s| - 1] in s[..k];
        assert s + [] == s;
      }
    }
  }

  function Trailing<T(==)>(s: seq<T>, d: T): seq<T> { if s != [] && s[|s| - 1] == d then [d] else [] }

  lemma JoinFirst<T>(first: seq<T>, tokens: seq<seq<T>>, d: T)
    ensures Join([first] + tokens, d) == if tokens == [] then first else first + [d] + Join(tokens, d)
  {
    assert ([first] + tokens)[1..] == tokens;
  }

  lemma Reassociate<T>(s: seq<T>, d: T, k: nat, joined: seq<T>, end: seq<T>)
    requires k < |s| && s[k] == d && s[k + 1..] == joined + end && end == Trailing(s[k + 1..], d)
    ensures s == s[..k] + [d] + joined + end
    ensures s[k + 1..] != [] ==> end == Trailing(s, d)
  {
    assert s == s[..k] + [d] + s[k + 1..];
  }

  /** The loop of `handleEnquiryRequest`. */
  method JoinFiles(files: seq<Text>) returns (response: Text)
    ensures response == Join(files, HASH)
  {
    response := [];
    for i := 0 to |files|
      invariant response + (if i == |files| then [] else Join(files[i..], HASH)) == Join(files, HASH)
    {
      assert files[i..][1..] == files[i + 1..];
      response := response + files[i];
      if i < |files| - 1 {
        response := response + [HASH];
      }
    }
  }

  // ---------------------------------------------------------------- decimal numbers

  predicate IsDigit(b: Byte) { ZERO <= b < ZERO + 10 }

  /** `std::to_string`. */
  function Decimal(n: nat): (s: Text)
    ensures s != [] && forall b <- s :: IsDigit(b)
  {
    if n < 10 then [ZERO + n] else Decimal(n / 10) + [ZERO + n % 10]
  }

  function ToString(x: int): Text {
    if x < 0 then [MINUS] + Decimal(-x) else Decimal(x)
  }

  /** `atoi` after white space and sign: digits up to the first other byte. */
  function Digits(s: Text, acc: int): int {
    if s == [] || !IsDigit(s[0]) then acc else Digits(s[1..], acc * 10 + (s[0] - ZERO))
  }

  predicate IsSpace(b: Byte) { b == 32 || 9 <= b <= 13 }

  const PLUS: Byte := 43

  function Atoi(s: Text): int {
    if s == [] then 0
    else if IsSpace(s[0]) then Atoi(s[1..])
    else if s[0] == MINUS then -Digits(s[1..], 0)
    else if s[0] == PLUS then Digits(s[1..], 0)
    else Digits(s, 0)
  }

  lemma {:induction false} DigitsAppend(s: Text, b: Byte, acc: int)
    requires IsDigit(b) && forall c <- s :: IsDigit(c)
    ensures Digits(s + [b], acc) == Digits(s, acc) * 10 + (b - ZERO)
  {
    if s == [] {
      assert s + [b] == [b];
      assert [b][1..] == [];
    } else {
      assert (s + [b])[1..] == s[1..] + [b];
      DigitsAppend(s[1..], b, acc * 10 + (s[0] - ZERO));
    }
  }

  lemma {:induction false} DigitsDecimal(n: nat)
    ensures Digits(Decimal(n), 0) == n
  {
    if n < 10 {
      assert Decimal(n)[1..] == [];
    } else {
      DigitsDecimal(n / 10);
      DigitsAppend(Decimal(n / 10), ZERO + n % 10, 0);
    }
  }

  lemma AtoiToString(x: int)
    ensures Atoi(ToString(x)) == x
  {
    if x < 0 {
      DigitsDecimal(-x);
      assert ToString(x)[1..] == Decimal(-x);
    } else {
      DigitsDecimal(x);
      assert ToString(x)[0] in Decimal(x);
    }
  }

  /** The number that digits stand for, the last one counting units. */
  function Value(s: Text): int {
    if s == [] then 0
    else
      var last: int := s[|s| - 1];
      10 * Value(s[..|s| - 1]) + (last - 48)
  }

  /** The most significant digit comes first, and is not 0 in a number of several digits. */
  lemma {:induction false} DecimalIsPositional(n: nat)
    ensures Value(Decimal(n)) == n && forall b <- Decimal(n) :: 48 <= b <= 57
    ensures n > 0 ==> Decimal(n)[0] != 48
    ensures Decimal(0) == [48]
  {
    if n >= 10 {
      DecimalIsPositional(n / 10);
      assert Decimal(n)[..|Decimal(n)| - 1] == Decimal(n / 10);
    } else {
      assert Decimal(n)[..0] == [];
    }
  }

  lemma SignComesFirst(x: int)
    ensures x >= 0 ==> Value(ToString(x)) == x && ToString(x)[0] != 45
    ensures x < 0 ==> ToString(x)[0] == 45 && Value(ToString(x)[1..]) == -x
  {
    DecimalIsPositional(if x < 0 then -x else x);
    if x < 0 { assert ToString(x)[1..] == Decimal(-x); } else { assert ToString(x)[0] in Decimal(x); }
  }

  lemma {:induction false} DigitsStop(digits: Text, rest: Text, acc: int)
    requires (forall b <- digits :: 48 <= b <= 57) && (rest == [] || !(48 <= rest[0] <= 57))
    ensures Digits(digits + rest, acc) == Digits(digits, acc)
  {
    if digits == [] {
      assert digits + rest == rest;
    } else {
      assert (digits + rest)[1..] == digits[1..] + rest;
      assert digits[0] in digits && forall b <- digits[1..] :: b in digits;
      DigitsStop(digits[1..], rest, acc * 10 + (digits[0] - ZERO));
    }
  }

  lemma {:induction false} DigitsAreValue(s: Text)
    requires forall b <- s :: 48 <= b <= 57
    ensures Digits(s, 0) == Value(s)
  {
    if s != [] {
      var init, last := s[..|s| - 1], s[|s| - 1];
      assert s == init + [last] && last in s && forall b <- init :: b in s;
      DigitsAreValue(init);
      DigitsAppend(init, last, 0);
    }
  }

  /** `atoi`: white space, a sign, digits; it stops at the first other byte. */
  lemma {:induction false} AtoiMeaning(spaces: Text, sign: Text, digits: Text, rest: Text)
    requires forall b <- spaces :: b == 32 || 9 <= b <= 13
    requires sign in {[], [43], [45]} && (forall b <- digits :: 48 <= b <= 57)
    requires rest == [] || !(48 <= rest[0] <= 57)
    requires rest == [] || sign + digits != [] || !(rest[0] == 32 || 9 <= rest[0] <= 13 || rest[0] in {43, 45})
    ensures Atoi(spaces + sign + digits + rest) == if sign == [45] then -Value(digits) else Value(digits)
    decreases |spaces|
  {
    var s := spaces + sign + digits + rest;
    if spaces != [] {
      assert s[0] in spaces && s[1..] == spaces[1..] + sign + digits + rest;
      assert forall b <- spaces[1..] :: b in spaces;
      AtoiMeaning(spaces[1..], sign, digits, rest);
    } else {
      DigitsStop(digits, rest, 0);
      DigitsAreValue(digits);
      if sign != [] {
        assert s[1..] == digits + rest;
      } else {
        assert s == digits + rest;
        assert digits != [] ==> digits[0] in digits;
      }
    }
  }

  lemma NumberIsPlain(x: int)
    ensures ToString(x) != [] && SEMICOLON !in ToString(x) && HASH !in ToString(x) && NEWLINE !in ToString(x)
    ensures COMMA !in ToString(x) && NUL !in ToString(x)
  {
  }

  // ---------------------------------------------------------------- the payload of REQUEST and REPLY

  datatype Payload = Payload(filename: Text, id: int, seqNo: int)

  /** `get_msg`. */
  function Print(p: Payload): Text {
    p.filename + [SEMICOLON] + ToString(p.id) + [HASH] + ToString(p.seqNo)
  }

  /**
   `handleClientPacket` up to the `;`, `treat_message` up to the `#`; None where the source
   would index a token that is not there.
  */
  function Parse(s: Text): Option<Payload> {
    var tokens := Split(s, SEMICOLON);
    if |tokens| < 2 then None
    else
      var numbers := Split(tokens[1], HASH);
      if |numbers| < 2 then None else Some(Payload(tokens[0], Atoi(numbers[0]), Atoi(numbers[1])))
  }

  /** The receiver reads the file name, sender and number that were sent exactly when the name has no `;`. */
  lemma ParsePrintIff(p: Payload)
    ensures Parse(Print(p)) == Some(p) <==> SEMICOLON !in p.filename
  {
    var numbers := ToString(p.id) + [HASH] + ToString(p.seqNo);
    NumberIsPlain(p.id);
    NumberIsPlain(p.seqNo);
    assert SEMICOLON !in numbers;
    assert Print(p) == p.filename + [SEMICOLON] + numbers;
    TokensAreFree(Print(p), SEMICOLON);
    if Parse(Print(p)) == Some(p) {
      assert Split(Print(p), SEMICOLON)[0] == p.filename;
    }
    if SEMICOLON !in p.filename {
      SplitFirst(p.filename, SEMICOLON, numbers);
      SplitNone(numbers, SEMICOLON);
      SplitFirst(ToString(p.id), HASH, ToString(p.seqNo));
      SplitNone(ToString(p.seqNo), HASH);
      AtoiToString(p.id);
      AtoiToString(p.seqNo);
    }
  }

  /** REQUEST and REPLY: the parts at `;` are the file name and the numbers, the parts of these at `#` id and number. */
  lemma PayloadReads(p: Payload)
    requires 59 !in p.filename
    ensures var tokens := Split(Print(p), 59);
      && |tokens| == 2 && tokens[0] == p.filename
      && var numbers := Split(tokens[1], 35);
         |numbers| == 2 && Atoi(numbers[0]) == p.id && Atoi(numbers[1]) == p.seqNo
  {
    var numbers := ToString(p.id) + [HASH] + ToString(p.seqNo);
    NumberIsPlain(p.id);
    NumberIsPlain(p.seqNo);
    assert Print(p) == p.filename + [SEMICOLON] + numbers;
    SplitFirst(p.filename, SEMICOLON, numbers);
    SplitNone(numbers, SEMICOLON);
    SplitFirst(ToString(p.id), HASH, ToString(p.seqNo));
    SplitNone(ToString(p.seqNo), HASH);
    AtoiToString(p.id);
    AtoiToString(p.seqNo);
  }

  // ---------------------------------------------------------------- the payload of WRITE

  /** `<client id>,<timestamp>`, the line that a WRITE appends. */
  function Line(id: int, timestamp: int): Text {
    ToString(id) + [COMMA] + ToString(timestamp)
  }

  function PrintWrite(filename: Text, line: Text): Text { filename + [HASH] + line }

  function ParseWrite(s: Text): Option<(Text, Text)> {
    var tokens := Split(s, HASH);
    if |tokens| < 2 then None else Some((tokens[0], tokens[1]))
  }

  lemma ParsePrintWriteIff(filename: Text, id: int, timestamp: int)
    ensures ParseWrite(PrintWrite(filename, Line(id, timestamp))) == Some((filename, Line(id, timestamp)))
       <==> HASH !in filename
  {
    var s := PrintWrite(filename, Line(id, timestamp));
    NumberIsPlain(id);
    NumberIsPlain(timestamp);
    TokensAreFree(s, HASH);
    if ParseWrite(s) == Some((filename, Line(id, timestamp))) {
      assert Split(s, HASH)[0] == filename;
    }
    if HASH !in filename {
      SplitFirst(filename, HASH, Line(id, timestamp));
      SplitNone(Line(id, timestamp), HASH);
    }
  }

  /**
   What a server makes of a WRITE of client id: split at `#`, the file name and the line; and the line, split
   at `,`, is the client's id and then its timestamp.
  */
  lemma WriteReads(filename: Text, id: int, timestamp: int)
    requires 35 !in filename
    ensures var tokens := Split(PrintWrite(filename, Line(id, timestamp)), 35);
      && |tokens| == 2 && tokens[0] == filename
      && var numbers := Split(tokens[1], 44);
         |numbers| == 2 && Atoi(numbers[0]) == id && Atoi(numbers[1]) == timestamp
  {
    NumberIsPlain(id);
    NumberIsPlain(timestamp);
    var line := Line(id, timestamp);
    SplitFirst(filename, HASH, line);
    SplitNone(line, HASH);
    SplitFirst(ToString(id), COMMA, ToString(timestamp));
    SplitNone(ToString(timestamp), COMMA);
    AtoiToString(id);
    AtoiToString(timestamp);
  }

  /** A line written with 32-bit numbers is one short, plain, non-empty line. */
  lemma LineIsShort(id: Int32, timestamp: Int32)
    ensures 1 <= |Line(id, timestamp)| <= 23
    ensures NEWLINE !in Line(id, timestamp) && NUL !in Line(id, timestamp)
  {
    NumberIsPlain(id);
    NumberIsPlain(timestamp);
    NumberIsShort(id);
    NumberIsShort(timestamp);
  }

  lemma NumberIsShort(x: Int32)
    ensures 1 <= |ToString(x)| <= 11
  {
    assert Pow10(5) == 100_000;
    assert Pow10(8) == 1000 * Pow10(5);
    assert Pow10(10) == 100 * Pow10(8);
    var v: int := x;
    DecimalLength(if v < 0 then -v else v, 10);
  }

  function Pow10(k: nat): nat { if k == 0 then 1 else 10 * Pow10(k - 1) }

  lemma {:induction false} DecimalLength(n: nat, k: nat)
    requires 0 < k && n < Pow10(k)
    ensures |Decimal(n)| <= k
  {
    if n >= 10 && k > 1 {
      DecimalLength(n / 10, k - 1);
    }
  }
}

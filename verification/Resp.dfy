/**
  The wire protocol of the store's client: what it writes, and how it reads replies back.
  Bytes are numbers; the 64-bit bounds of the client's integers are spelled out.
 */
module Resp {
  import opened ByteStrings

  const PLUS: Byte := 43
  const MINUS: Byte := 45
  const COLON: Byte := 58
  const DOLLAR: Byte := 36
  const STAR: Byte := 42
  const ZERO: Byte := 48
  const CRLF: Bytes := [CR, LF]

  const MAX_INT64: int := 0x7fff_ffff_ffff_ffff
  const MIN_INT64: int := -0x8000_0000_0000_0000

  predicate FitsInt64(n: int) {
    MIN_INT64 <= n <= MAX_INT64
  }

  // Decimal numbers.

  function Digits(n: nat): (r: Bytes)
    ensures r != [] && forall b <- r :: IsDigit(b)
  {
    if n < 10 then [ZERO + n] else Digits(n / 10) + [ZERO + n % 10]
  }

  function Decimal(n: int): Bytes {
    if n < 0 then [MINUS] + Digits(-n) else Digits(n)
  }

  predicate IsDigit(b: Byte) {
    ZERO <= b <= ZERO + 9
  }

  function ValueOf(digits: Bytes): int {
    if digits == [] then 0 else 10 * ValueOf(digits[..|digits| - 1]) + digits[|digits| - 1] - ZERO
  }

  /** A whole decimal number with an optional sign, in 64 bits. */
  function ParseInt(s: Bytes): Option<int> {
    var signed := s != [] && (s[0] == PLUS || s[0] == MINUS);
    var digits := if signed then s[1..] else s;
    var n := if signed && s[0] == MINUS then -ValueOf(digits) else ValueOf(digits);
    if digits == [] || (exists b <- digits :: !IsDigit(b)) || !FitsInt64(n) then None else Some(n)
  }

  lemma {:induction false} DigitsValue(n: nat)
    ensures ValueOf(Digits(n)) == n
  {
    if n >= 10 {
      DigitsValue(n / 10);
      assert Digits(n)[..|Digits(n)| - 1] == Digits(n / 10);
    }
  }

  lemma DecimalParses(n: int)
    requires FitsInt64(n)
    ensures ParseInt(Decimal(n)) == Some(n)
  {
    var digits := Digits(if n < 0 then -n else n);
    DigitsValue(if n < 0 then -n else n);
    assert digits[0] in digits;
    if n < 0 {
      assert Decimal(n)[1..] == digits;
    }
  }

  // What travels.

  /** A reply on the wire, with the two nulls told apart. */
  datatype Wire =
    | Simple(text: Bytes)
    | Error(text: Bytes)
    | Integer(n: int)
    | Bulk(bytes: Bytes)
    | NullBulk
    | NullArray
    | Array(items: seq<Wire>)

  function Line(kind: Byte, body: Bytes): Bytes {
    [kind] + body + CRLF
  }

  function Encode(w: Wire): Bytes
    decreases w
  {
    match w
    case Simple(text) => Line(PLUS, text)
    case Error(text) => Line(MINUS, text)
    case Integer(n) => Line(COLON, Decimal(n))
    case Bulk(bytes) => Line(DOLLAR, Decimal(|bytes|)) + bytes + CRLF
    case NullBulk => Line(DOLLAR, Decimal(-1))
    case NullArray => Line(STAR, Decimal(-1))
    case Array(items) => Line(STAR, Decimal(|items|)) + EncodeAll(items)
  }

  function EncodeAll(ws: seq<Wire>): Bytes
    decreases ws
  {
    if ws == [] then [] else Encode(ws[0]) + EncodeAll(ws[1..])
  }

  /** What the protocol lets a server send: no line break inside a line, numbers and lengths in 64 bits. */
  ghost predicate Sendable(w: Wire)
    decreases w
  {
    match w
    case Simple(text) => LF !in text
    case Error(text) => LF !in text
    case Integer(n) => FitsInt64(n)
    case Bulk(bytes) => FitsInt64(|bytes|)
    case NullBulk => true
    case NullArray => true
    case Array(items) => FitsInt64(|items|) && forall i :: 0 <= i < |items| ==> Sendable(items[i])
  }

  // What is read.

  /** A reply as the caller gets it; an error reply is an error on its own and a value in a list. */
  datatype Reply = Text(bytes: Bytes) | ServerError(bytes: Bytes) | Number(n: int) | Nil | List(items: seq<Reply>)

  function Meaning(w: Wire): Reply
    decreases w
  {
    match w
    case Simple(text) => Text(text)
    case Error(text) => ServerError(text)
    case Integer(n) => Number(n)
    case Bulk(bytes) => Text(bytes)
    case NullBulk => Nil
    case NullArray => Nil
    case Array(items) => List(Meanings(items))
  }

  function Meanings(ws: seq<Wire>): (r: seq<Reply>)
    ensures |r| == |ws|
    decreases ws
  {
    if ws == [] then [] else [Meaning(ws[0])] + Meanings(ws[1..])
  }

  datatype Fault = EndOfStream | Malformed | EmptyReply | BadNumber | UnknownType

  /** What was read and what is left to read, or why nothing could be. */
  datatype Read<T> = Got(value: T, rest: Bytes) | Failed(fault: Fault)

  function ReadLine(s: Bytes): (r: Read<Bytes>)
    ensures r.Got? ==> |r.rest| < |s|
  {
    var i := LineEnd(s);
    if i == |s| then Failed(EndOfStream)
    else if i == 0 || s[i - 1] != CR then Failed(Malformed)
    else Got(s[..i - 1], s[i + 1..])
  }

  function ReadReply(s: Bytes): (r: Read<Reply>)
    ensures r.Got? ==> |r.rest| < |s|
    decreases |s|, 0
  {
    var line := ReadLine(s);
    if line.Failed? then Failed(line.fault)
    else if line.value == [] then Failed(EmptyReply)
    else
      var kind, body, rest := line.value[0], line.value[1..], line.rest;
      if kind == PLUS then Got(Text(body), rest)
      else if kind == MINUS then Got(ServerError(body), rest)
      else if kind !in [COLON, DOLLAR, STAR] then Failed(UnknownType)
      else
        var n := ParseInt(body);
        if n.None? then Failed(BadNumber)
        else if kind == COLON then Got(Number(n.value), rest)
        else if n.value < 0 then Got(Nil, rest)
        else if kind == DOLLAR then
          if |rest| < n.value + 2 then Failed(EndOfStream) else Got(Text(rest[..n.value]), rest[n.value + 2..])
        else
          var items := ReadReplies(n.value, rest);
          if items.Failed? then Failed(items.fault) else Got(List(items.value), items.rest)
  }

  function ReadReplies(n: nat, s: Bytes): (r: Read<seq<Reply>>)
    ensures r.Got? ==> |r.value| == n && |r.rest| <= |s|
    decreases |s|, 1
  {
    if n == 0 then Got([], s)
    else
      var first := ReadReply(s);
      if first.Failed? then Failed(first.fault)
      else
        var more := ReadReplies(n - 1, first.rest);
        if more.Failed? then Failed(more.fault) else Got([first.value] + more.value, more.rest)
  }

  // Reading what was written.

  lemma {:induction false} FirstLine(body: Bytes, rest: Bytes)
    requires LF !in body
    ensures LineEnd(body + CRLF + rest) == |body| + 1
  {
    var s := body + CRLF + rest;
    if body == [] {
      assert s[1..] == [LF] + rest;
    } else {
      FirstLine(body[1..], rest);
      assert s[1..] == body[1..] + CRLF + rest;
    }
  }

  lemma LineReads(kind: Byte, body: Bytes, rest: Bytes)
    requires LF !in body && kind != LF
    ensures ReadLine(Line(kind, body) + rest) == Got([kind] + body, rest)
  {
    var text := [kind] + body;
    FirstLine(text, rest);
    var s := Line(kind, body) + rest;
    assert s == text + CRLF + rest;
    assert s[..|text|] == text && s[|text| + 2..] == rest;
  }

  lemma DecimalIsOneLine(n: int)
    ensures LF !in Decimal(n)
  {
    assert forall b: Byte :: IsDigit(b) ==> b != LF;
  }

  /** Reading a reply's encoding gives back the reply and leaves what follows untouched. */
  lemma {:induction false} RoundTrip(w: Wire, rest: Bytes)
    requires Sendable(w)
    ensures ReadReply(Encode(w) + rest) == Got(Meaning(w), rest)
    decreases w
  {
    hide ReadReply, ReadReplies, EncodeAll, Meanings, Decimal;
    match w {
      case Simple(text) => StatusReads(PLUS, text, rest);
      case Error(text) => StatusReads(MINUS, text, rest);
      case Integer(n) => IntegerReads(COLON, n, rest);
      case Bulk(bytes) => BulkReads(bytes, rest);
      case NullBulk => IntegerReads(DOLLAR, -1, rest);
      case NullArray => IntegerReads(STAR, -1, rest);
      case Array(items) =>
        ArrayReads(|items|, EncodeAll(items) + rest);
        RoundTrips(items, rest);
        assert Encode(w) + rest == Line(STAR, Decimal(|items|)) + (EncodeAll(items) + rest);
    }
  }

  lemma StatusReads(kind: Byte, text: Bytes, rest: Bytes)
    requires LF !in text && kind in [PLUS, MINUS]
    ensures ReadReply(Line(kind, text) + rest) == Got(if kind == PLUS then Text(text) else ServerError(text), rest)
  {
    hide ReadLine, Line;
    LineReads(kind, text, rest);
  }

  lemma IntegerReads(kind: Byte, n: int, rest: Bytes)
    requires FitsInt64(n) && (kind == COLON || (kind in [DOLLAR, STAR] && n < 0))
    ensures ReadReply(Line(kind, Decimal(n)) + rest) == Got(if kind == COLON then Number(n) else Nil, rest)
  {
    hide ReadLine, Line, ParseInt, Decimal;
    NumberReads(kind, n, rest);
  }

  lemma NumberReads(kind: Byte, n: int, rest: Bytes)
    requires kind in [COLON, DOLLAR, STAR] && FitsInt64(n)
    ensures
      var line := ReadLine(Line(kind, Decimal(n)) + rest);
      line == Got([kind] + Decimal(n), rest) && ParseInt(line.value[1..]) == Some(n)
  {
    hide ReadLine, Line, ParseInt, Decimal;
    DecimalIsOneLine(n);
    LineReads(kind, Decimal(n), rest);
    DecimalParses(n);
    assert ([kind] + Decimal(n))[1..] == Decimal(n);
  }

  lemma BulkReads(bytes: Bytes, rest: Bytes)
    requires FitsInt64(|bytes|)
    ensures ReadReply(Encode(Bulk(bytes)) + rest) == Got(Text(bytes), rest)
  {
    var tail := bytes + CRLF + rest;
    NumberReads(DOLLAR, |bytes|, tail);
    assert Encode(Bulk(bytes)) + rest == Line(DOLLAR, Decimal(|bytes|)) + tail;
    assert tail[..|bytes|] == bytes && tail[|bytes| + 2..] == rest;
  }

  lemma ArrayReads(n: nat, tail: Bytes)
    requires FitsInt64(n)
    ensures
      var items := ReadReplies(n, tail);
      ReadReply(Line(STAR, Decimal(n)) + tail)
      == if items.Failed? then Failed(items.fault) else Got(List(items.value), items.rest)
  {
    hide ReadLine, Line, ParseInt, Decimal, ReadReplies;
    NumberReads(STAR, n, tail);
  }

  lemma NextReads(n: nat, s: Bytes, v: Reply, s1: Bytes, vs: seq<Reply>, rest: Bytes)
    requires ReadReply(s) == Got(v, s1) && ReadReplies(n, s1) == Got(vs, rest)
    ensures ReadReplies(n + 1, s) == Got([v] + vs, rest)
  {
    hide ReadReply;
  }

  lemma {:induction false} RoundTrips(ws: seq<Wire>, rest: Bytes)
    requires forall i :: 0 <= i < |ws| ==> Sendable(ws[i])
    ensures ReadReplies(|ws|, EncodeAll(ws) + rest) == Got(Meanings(ws), rest)
    decreases ws
  {
    hide ReadReply, Encode, Meaning, Sendable;
    if ws == [] {
      assert EncodeAll(ws) + rest == rest;
    } else {
      hide ReadReplies;
      var tail := EncodeAll(ws[1..]) + rest;
      assert EncodeAll(ws) + rest == Encode(ws[0]) + tail;
      RoundTrip(ws[0], tail);
      RoundTrips(ws[1..], rest);
      NextReads(|ws| - 1, Encode(ws[0]) + tail, Meaning(ws[0]), tail, Meanings(ws[1..]), rest);
    }
  }

  lemma {:induction false} FirstFeed(s: Bytes, k: nat)
    requires k < |s| && s[k] == LF
    ensures LineEnd(s) <= k
  {
    if k > 0 && s[0] != LF {
      FirstFeed(s[1..], k - 1);
    }
  }

  /** A one-line reply comes back whole exactly when it has no line feed in it. */
  lemma OneLineExactly(text: Bytes, rest: Bytes)
    ensures ReadReply(Encode(Simple(text)) + rest) == Got(Text(text), rest) <==> LF !in text
  {
    if LF in text {
      var s := Encode(Simple(text)) + rest;
      var i :| 0 <= i < |text| && text[i] == LF;
      FirstFeed(s, i + 1);
    } else {
      LineReads(PLUS, text, rest);
    }
  }

  // Commands.

  function Bulks(args: seq<Bytes>): (r: seq<Wire>)
    ensures |r| == |args| && forall i :: 0 <= i < |r| ==> r[i] == Bulk(args[i])
  {
    if args == [] then [] else [Bulk(args[0])] + Bulks(args[1..])
  }

  function Texts(args: seq<Bytes>): (r: seq<Reply>)
    ensures |r| == |args| && forall i :: 0 <= i < |r| ==> r[i] == Text(args[i])
  {
    if args == [] then [] else [Text(args[0])] + Texts(args[1..])
  }

  function Command(args: seq<Bytes>): Bytes {
    Encode(Array(Bulks(args)))
  }

  predicate Writable(args: seq<Bytes>) {
    FitsInt64(|args|) && forall a <- args :: FitsInt64(|a|)
  }

  lemma {:induction false} BulksMean(args: seq<Bytes>)
    ensures Meanings(Bulks(args)) == Texts(args)
  {
    if args != [] {
      BulksMean(args[1..]);
    }
  }

  /** A command reads back as its arguments, line breaks in them included, and nothing after it is consumed. */
  lemma {:induction false} CommandReadsBack(args: seq<Bytes>, rest: Bytes)
    requires Writable(args)
    ensures ReadReply(Command(args) + rest) == Got(List(Texts(args)), rest)
  {
    RoundTrip(Array(Bulks(args)), rest);
    BulksMean(args);
  }

  function Commands(all: seq<seq<Bytes>>): Bytes {
    if all == [] then [] else Command(all[0]) + Commands(all[1..])
  }

  /** What commands read back as. */
  function Lists(all: seq<seq<Bytes>>): (r: seq<Reply>)
    ensures |r| == |all| && forall i :: 0 <= i < |all| ==> r[i] == List(Texts(all[i]))
  {
    if all == [] then [] else [List(Texts(all[0]))] + Lists(all[1..])
  }

  /** Commands written one after another read back one by one, each whole. */
  lemma {:induction false} CommandsReadBack(all: seq<seq<Bytes>>, rest: Bytes)
    requires forall i :: 0 <= i < |all| ==> Writable(all[i])
    ensures ReadReplies(|all|, Commands(all) + rest) == Got(Lists(all), rest)
  {
    hide ReadReply, Command, Texts, Writable;
    if all == [] {
      assert Commands(all) + rest == rest;
    } else {
      hide ReadReplies;
      var tail := Commands(all[1..]) + rest;
      assert Commands(all) + rest == Command(all[0]) + tail;
      CommandReadsBack(all[0], tail);
      CommandsReadBack(all[1..], rest);
      NextReads(|all| - 1, Command(all[0]) + tail, List(Texts(all[0])), tail, Lists(all[1..]), rest);
    }
  }
}

/**
  What the client accepts, said without reading: the replies it takes are all and only the
  bytes of this grammar, and a reply cut short anywhere is the end of the stream to it. It does not
  look at the two bytes after a bulk, and takes a number with a sign or leading noughts.
 */
module RespGrammar {
  import opened ByteStrings
  import opened Resp

  /** A reply as a server might send it, numbers as their bytes. */
  datatype Sent =
    | Status(text: Bytes)
    | Fault(text: Bytes)
    | Num(digits: Bytes)
    | Null(kind: Byte, digits: Bytes)
    | Blob(digits: Bytes, bytes: Bytes, end: Bytes)
    | Items(digits: Bytes, items: seq<Sent>)

  ghost predicate Valid(x: Sent)
    decreases x
  {
    match x
    case Status(text) => LF !in text
    case Fault(text) => LF !in text
    case Num(digits) => LF !in digits && ParseInt(digits).Some?
    case Null(kind, digits) => kind in {36, 42} && LF !in digits && ParseInt(digits).Some? && ParseInt(digits).value < 0
    case Blob(digits, bytes, end) => LF !in digits && ParseInt(digits) == Some(|bytes|) && |end| == 2
    case Items(digits, items) =>
      LF !in digits && ParseInt(digits) == Some(|items|) && forall i :: 0 <= i < |items| ==> Valid(items[i])
  }

  /** A line as it is sent: its kind, what it says, and a carriage return and line feed. */
  function LineOf(kind: Byte, body: Bytes): Bytes {
    [kind] + body + [13, 10]
  }

  function Written(x: Sent): Bytes
    decreases x
  {
    match x
    case Status(text) => LineOf(43, text)
    case Fault(text) => LineOf(45, text)
    case Num(digits) => LineOf(58, digits)
    case Null(kind, digits) => LineOf(kind, digits)
    case Blob(digits, bytes, end) => LineOf(36, digits) + bytes + end
    case Items(digits, items) => LineOf(42, digits) + AllWritten(items)
  }

  function AllWritten(xs: seq<Sent>): Bytes
    decreases xs
  {
    if xs == [] then [] else Written(xs[0]) + AllWritten(xs[1..])
  }

  function Says(x: Sent): Reply
    decreases x
  {
    match x
    case Status(text) => Text(text)
    case Fault(text) => ServerError(text)
    case Num(digits) => if ParseInt(digits).Some? then Number(ParseInt(digits).value) else Nil
    case Null(_, _) => Nil
    case Blob(_, bytes, _) => Text(bytes)
    case Items(_, items) => List(AllSay(items))
  }

  function AllSay(xs: seq<Sent>): (r: seq<Reply>)
    ensures |r| == |xs|
    decreases xs
  {
    if xs == [] then [] else [Says(xs[0])] + AllSay(xs[1..])
  }

  // Numbers.

  lemma {:induction false} NoLeadingNought(n: nat)
    ensures n > 0 ==> Digits(n)[0] != ZERO
    ensures Digits(n)[0] != MINUS && Digits(0) == [ZERO]
  {
    if n >= 10 {
      NoLeadingNought(n / 10);
    }
  }

  /** The lengths the client writes have no sign and no leading nought, and only what is negative has a sign. */
  lemma DecimalIsPlain(n: int)
    ensures (Decimal(n)[0] == 45 <==> n < 0) && (n > 0 ==> Decimal(n)[0] != 48) && (n == 0 ==> Decimal(n) == [48])
  {
    NoLeadingNought(if n < 0 then -n else n);
  }

  /** A number in decimal is read exactly if it fits 64 bits with a sign. */
  lemma DecimalParsesExactly(n: int)
    ensures ParseInt(Decimal(n)) == Some(n) <==> -9_223_372_036_854_775_808 <= n <= 9_223_372_036_854_775_807
  {
    if FitsInt64(n) {
      DecimalParses(n);
    }
  }

  // Lines.

  /** A line is read exactly if it is there, ended by a carriage return and the stream's first line feed. */
  lemma LineReadsExactly(s: Bytes, text: Bytes, rest: Bytes)
    ensures ReadLine(s) == Got(text, rest) <==> LF !in text && s == text + [13, 10] + rest
    ensures ReadLine(s) == Failed(EndOfStream) <==> LF !in s
    ensures ReadLine(s).Failed? ==> ReadLine(s).fault in {EndOfStream, Malformed}
  {
    var i := LineEnd(s);
    if LF !in text && s == text + [13, 10] + rest {
      assert s[..|text| + 1] == text + [13];
      EndsAt(s, |text| + 1);
      assert s[..|text|] == text && s[|text| + 2..] == rest;
    }
    if ReadLine(s) == Got(text, rest) {
      assert s == s[..i - 1] + [s[i - 1], s[i]] + s[i + 1..];
      assert s[..i] == text + [13];
      assert forall b <- text :: b in s[..i];
    }
    if LF !in s {
      assert s[..|s|] == s;
      EndsAt(s, |s|);
    } else {
      FeedFound(s);
    }
  }

  lemma HeadReads(kind: Byte, body: Bytes, rest: Bytes)
    requires LF !in body && kind != LF
    ensures ReadLine(LineOf(kind, body) + rest) == Got([kind] + body, rest)
    ensures ([kind] + body)[0] == kind && ([kind] + body)[1..] == body
  {
    hide ReadLine;
    assert LineOf(kind, body) + rest == ([kind] + body) + [13, 10] + rest;
    LineReadsExactly(LineOf(kind, body) + rest, [kind] + body, rest);
  }

  // All of the grammar is read.

  lemma {:induction false} GrammarReads(x: Sent, rest: Bytes)
    requires Valid(x)
    ensures ReadReply(Written(x) + rest) == Got(Says(x), rest)
    decreases x
  {
    hide ReadLine, ParseInt, LineOf, ReadReplies;
    match x {
      case Status(text) => HeadReads(43, text, rest);
      case Fault(text) => HeadReads(45, text, rest);
      case Num(digits) => HeadReads(58, digits, rest);
      case Null(kind, digits) => HeadReads(kind, digits, rest);
      case Blob(digits, bytes, end) =>
        var tail := bytes + end + rest;
        HeadReads(36, digits, tail);
        assert Written(x) + rest == LineOf(36, digits) + tail;
        assert tail[..|bytes|] == bytes && tail[|bytes| + 2..] == rest;
      case Items(digits, items) =>
        var tail := AllWritten(items) + rest;
        HeadReads(42, digits, tail);
        assert Written(x) + rest == LineOf(42, digits) + tail;
        GrammarsRead(items, rest);
    }
  }

  lemma {:induction false} GrammarsRead(xs: seq<Sent>, rest: Bytes)
    requires forall i :: 0 <= i < |xs| ==> Valid(xs[i])
    ensures ReadReplies(|xs|, AllWritten(xs) + rest) == Got(AllSay(xs), rest)
    decreases xs
  {
    hide ReadReply, Written, Says, Valid;
    if xs == [] {
      assert AllWritten(xs) + rest == rest;
    } else {
      hide ReadReplies;
      var tail := AllWritten(xs[1..]) + rest;
      assert AllWritten(xs) + rest == Written(xs[0]) + tail;
      GrammarReads(xs[0], tail);
      GrammarsRead(xs[1..], rest);
      NextReads(|xs| - 1, Written(xs[0]) + tail, Says(xs[0]), tail, AllSay(xs[1..]), rest);
    }
  }

  // And nothing else.

  lemma {:induction false} OnlyGrammar(s: Bytes) returns (x: Sent)
    requires ReadReply(s).Got?
    ensures Valid(x) && Says(x) == ReadReply(s).value && s == Written(x) + ReadReply(s).rest
    decreases |s|, 0
  {
    hide ParseInt, ReadReplies, ReadLine;
    var line := ReadLine(s);
    LineReadsExactly(s, line.value, line.rest);
    var kind, body := line.value[0], line.value[1..];
    assert line.value == [kind] + body;
    assert forall b <- body :: b in line.value;
    assert s == LineOf(kind, body) + line.rest;
    if kind == 43 {
      x := Status(body);
    } else if kind == 45 {
      x := Fault(body);
    } else if kind == 58 {
      x := Num(body);
    } else {
      var n := ParseInt(body).value;
      if n < 0 {
        x := Null(kind, body);
      } else if kind == 36 {
        x := Blob(body, line.rest[..n], line.rest[n..n + 2]);
        assert s == Written(x) + line.rest[n + 2..] by { BlobCut(body, line.rest, n); }
      } else {
        var items := OnlyGrammars(n, line.rest);
        x := Items(body, items);
        assert s == LineOf(42, body) + (AllWritten(items) + ReadReply(s).rest);
      }
    }
  }

  lemma BlobCut(body: Bytes, rest: Bytes, n: nat)
    requires n + 2 <= |rest|
    ensures Written(Blob(body, rest[..n], rest[n..n + 2])) + rest[n + 2..] == LineOf(36, body) + rest
  {
    hide LineOf;
    assert rest == rest[..n] + rest[n..n + 2] + rest[n + 2..];
  }

  lemma {:induction false} OnlyGrammars(n: nat, s: Bytes) returns (xs: seq<Sent>)
    requires ReadReplies(n, s).Got?
    ensures |xs| == n && forall i :: 0 <= i < n ==> Valid(xs[i])
    ensures AllSay(xs) == ReadReplies(n, s).value && s == AllWritten(xs) + ReadReplies(n, s).rest
    decreases |s|, 1
  {
    hide ReadReply, Written, Says, Valid;
    if n == 0 {
      xs := [];
    } else {
      var first := ReadReply(s);
      var x := OnlyGrammar(s);
      var more := OnlyGrammars(n - 1, first.rest);
      xs := [x] + more;
      assert xs[1..] == more;
    }
  }

  /** The client reads a reply, and leaves the rest unread, exactly if the stream begins with one of the grammar that says so. */
  lemma ReadsExactly(s: Bytes, v: Reply, rest: Bytes)
    ensures ReadReply(s) == Got(v, rest) <==> exists x :: Valid(x) && Says(x) == v && s == Written(x) + rest
  {
    hide ReadReply, Written, Says, Valid;
    if ReadReply(s) == Got(v, rest) {
      var x := OnlyGrammar(s);
      assert Valid(x) && Says(x) == v && s == Written(x) + rest;
    }
    if x :| Valid(x) && Says(x) == v && s == Written(x) + rest {
      GrammarReads(x, rest);
    }
  }

  // A reply cut short.

  lemma CutLine(kind: Byte, body: Bytes, n: nat)
    requires LF !in body && kind != LF && n < |LineOf(kind, body)|
    ensures ReadLine(LineOf(kind, body)[..n]) == Failed(EndOfStream)
  {
    hide ReadLine;
    var cut := LineOf(kind, body)[..n];
    assert LineOf(kind, body) == ([kind] + body + [13]) + [10];
    assert cut == ([kind] + body + [13])[..n];
    assert forall b <- cut :: b in [kind] + body + [13];
    LineReadsExactly(cut, [], []);
  }

  lemma {:induction false} CutShort(x: Sent, n: nat)
    requires Valid(x) && n < |Written(x)|
    ensures ReadReply(Written(x)[..n]) == Failed(EndOfStream)
    decreases x
  {
    hide ReadLine, ParseInt, ReadReplies;
    var (kind, body) := match x
      case Status(text) => (43, text)
      case Fault(text) => (45, text)
      case Num(digits) => (58, digits)
      case Null(kind, digits) => (kind as int, digits)
      case Blob(digits, _, _) => (36, digits)
      case Items(digits, _) => (42, digits);
    var head := LineOf(kind, body);
    if n < |head| {
      assert Written(x)[..n] == head[..n];
      CutLine(kind, body, n);
    } else {
      var m := n - |head|;
      match x {
        case Blob(digits, bytes, end) =>
          var tail := (bytes + end)[..m];
          assert Written(x)[..n] == head + tail;
          HeadReads(36, digits, tail);
        case Items(digits, items) =>
          var tail := AllWritten(items)[..m];
          assert Written(x)[..n] == head + tail;
          HeadReads(42, digits, tail);
          AllCutShort(items, m);
      }
    }
  }

  lemma {:induction false} AllCutShort(xs: seq<Sent>, n: nat)
    requires (forall i :: 0 <= i < |xs| ==> Valid(xs[i])) && n < |AllWritten(xs)|
    ensures ReadReplies(|xs|, AllWritten(xs)[..n]) == Failed(EndOfStream)
    decreases xs
  {
    hide ReadReply, Written, Says, Valid;
    var first := Written(xs[0]);
    if n < |first| {
      assert AllWritten(xs)[..n] == first[..n];
      CutShort(xs[0], n);
    } else {
      var tail := AllWritten(xs[1..])[..n - |first|];
      assert AllWritten(xs)[..n] == first + tail;
      GrammarReads(xs[0], tail);
      AllCutShort(xs[1..], n - |first|);
    }
  }
}

/**
  The client's writer and reader, as they run: a loop that writes a command's arguments one by
  one, and a reader that consumes a buffered stream.
 */
module RespStreams {
  import opened ByteStrings
  import opened Resp

  /** One argument, or the header of a command, as the writer formats it. */
  function Chunk(a: Bytes): Bytes {
    Line(DOLLAR, Decimal(|a|)) + a + CRLF
  }

  lemma {:induction false} LastBulk(args: seq<Bytes>, i: nat)
    requires i < |args|
    ensures EncodeAll(Bulks(args[..i + 1])) == EncodeAll(Bulks(args[..i])) + Chunk(args[i])
  {
    hide Chunk, Encode;
    assert EncodeAll([]) == [];
    if i == 0 {
      assert Bulks(args[..1])[1..] == [] && Bulks(args[..0]) == [];
      BulkIsChunk(args[0]);
    } else {
      LastBulk(args[1..], i - 1);
      assert args[..i + 1][1..] == args[1..][..i] && args[..i][1..] == args[1..][..i - 1];
      assert Bulks(args[..i + 1])[1..] == Bulks(args[..i + 1][1..]) && Bulks(args[..i])[1..] == Bulks(args[..i][1..]);
    }
  }

  lemma BulkIsChunk(a: Bytes)
    ensures Encode(Bulk(a)) == Chunk(a)
  {
  }

  /** What a command's arguments come out as; whatever follows it, it reads back as just those arguments. */
  method WriteCommand(args: seq<Bytes>) returns (out: Bytes)
    requires Writable(args)
    ensures out == Command(args)
    ensures forall rest :: ReadReply(out + rest) == Got(List(Texts(args)), rest)
  {
    hide ReadReply, Writable, Bulks, Texts, EncodeAll;
    out := Line(STAR, Decimal(|args|));
    var i := 0;
    assert args[..0] == [];
    NoBulks();
    while i < |args|
      invariant 0 <= i <= |args|
      invariant out == Line(STAR, Decimal(|args|)) + EncodeAll(Bulks(args[..i]))
    {
      LastBulk(args, i);
      out := out + (Line(DOLLAR, Decimal(|args[i]|)) + args[i] + CRLF);
      i := i + 1;
    }
    assert args[..i] == args;
    forall rest ensures ReadReply(out + rest) == Got(List(Texts(args)), rest) {
      CommandReadsBack(args, rest);
    }
  }

  lemma NoBulks()
    ensures EncodeAll(Bulks([])) == []
  {
  }

  /** What a reading came to; a fault leaves the connection unusable. */
  datatype Result<T> = Ok(value: T) | Fail(fault: Fault)

  /** A reading ended, with `unread` left, as the protocol's own function says it should. */
  predicate Ended<T(==)>(r: Result<T>, unread: Bytes, expected: Read<T>) {
    if expected.Failed? then r == Fail(expected.fault) else r == Ok(expected.value) && unread == expected.rest
  }

  class Reader {
    var unread: Bytes

    constructor (s: Bytes)
      ensures unread == s
    {
      unread := s;
    }

    /** Scans for the end of the line, byte by byte. */
    method NextLine() returns (r: Result<Bytes>)
      modifies this
      ensures Ended(r, unread, ReadLine(old(unread)))
    {
      var i := 0;
      while i < |unread| && unread[i] != LF
        invariant 0 <= i <= |unread| && unread == old(unread) && LF !in unread[..i]
      {
        i := i + 1;
      }
      EndsAt(unread, i);
      if i == |unread| {
        return Fail(EndOfStream);
      }
      var line := unread[..i + 1];
      if |line| < 2 || line[|line| - 2] != CR {
        return Fail(Malformed);
      }
      assert line[..i - 1] == unread[..i - 1];
      r := Ok(line[..|line| - 2]);
      unread := unread[i + 1..];
    }

    method NextReply() returns (r: Result<Reply>)
      modifies this
      ensures Ended(r, unread, ReadReply(old(unread)))
      decreases |unread|, 0
    {
      hide ReadLine, ReadReplies, ParseInt;
      var line := NextLine();
      if line.Fail? {
        return Fail(line.fault);
      }
      if line.value == [] {
        return Fail(EmptyReply);
      }
      var kind, body := line.value[0], line.value[1..];
      if kind == PLUS {
        return Ok(Text(body));
      }
      if kind == MINUS {
        return Ok(ServerError(body));
      }
      if kind !in [COLON, DOLLAR, STAR] {
        return Fail(UnknownType);
      }
      var n := ParseInt(body);
      if n.None? {
        return Fail(BadNumber);
      }
      if kind == COLON {
        return Ok(Number(n.value));
      }
      if n.value < 0 {
        return Ok(Nil);
      }
      if kind == DOLLAR {
        if |unread| < n.value + 2 {
          return Fail(EndOfStream);
        }
        r := Ok(Text(unread[..n.value]));
        unread := unread[n.value + 2..];
        return;
      }
      var items := NextReplies(n.value);
      r := if items.Fail? then Fail(items.fault) else Ok(List(items.value));
    }

    /** The elements of an array in turn; an error reply is an element like another. */
    method NextReplies(n: nat) returns (r: Result<seq<Reply>>)
      modifies this
      ensures Ended(r, unread, ReadReplies(n, old(unread)))
      decreases |unread|, 1
    {
      hide ReadReply;
      var out, i := [], 0;
      NoPrefix(ReadReplies(n, unread));
      while i < n
        invariant 0 <= i <= n && |out| == i && |unread| <= |old(unread)|
        invariant ReadReplies(n, old(unread)) == Prefixed(out, ReadReplies(n - i, unread))
      {
        var v := NextReply();
        if v.Fail? {
          return Fail(v.fault);
        }
        PrefixGrows(out, v.value, ReadReplies(n - i - 1, unread));
        out := out + [v.value];
        i := i + 1;
      }
      r := Ok(out);
      assert out + [] == out;
    }
  }

  /** Replies read so far, before those read next. */
  function Prefixed(out: seq<Reply>, more: Read<seq<Reply>>): Read<seq<Reply>> {
    if more.Failed? then more else Got(out + more.value, more.rest)
  }

  lemma NoPrefix(more: Read<seq<Reply>>)
    ensures Prefixed([], more) == more
  {
    assert more.Got? ==> [] + more.value == more.value;
  }

  lemma PrefixGrows(out: seq<Reply>, v: Reply, more: Read<seq<Reply>>)
    ensures Prefixed(out + [v], more) == Prefixed(out, Prefixed([v], more))
  {
    if more.Got? {
      assert (out + [v]) + more.value == out + ([v] + more.value);
    }
  }
}

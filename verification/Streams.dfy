/**
  Reading usage out of a server-sent event stream as it passes, however it is cut into writes.
  What a line says is an unknown function from lines to frames.
 */
module Streams {
  import opened ByteStrings

  datatype Provider = OpenAI | Anthropic | Gemini | Other

  datatype Usage = Usage(input: int, output: int, cacheRead: int, cacheWrite5m: int, cacheWrite1h: int)

  datatype RawUsage = RawUsage(
    prompt: int, completion: int, cached: int, input: int, output: int,
    cacheRead: int, cacheCreation: int, ephemeral5m: int, ephemeral1h: int)

  datatype Metadata = Metadata(prompt: int, candidates: int, cached: int, thoughts: int)

  datatype Frame = Frame(
    model: string, messageModel: string, modelVersion: string,
    message: RawUsage, usage: RawUsage, metadata: Metadata)

  /** What has been read of a stream so far. */
  datatype Meter = Meter(usage: Usage, model: string, got: bool)

  const NOTHING := Meter(Usage(0, 0, 0, 0, 0), "", false)

  // One frame.

  function ModelOf(f: Frame): string {
    if f.model != "" then f.model else if f.messageModel != "" then f.messageModel else f.modelVersion
  }

  /** Whether a frame opens a message, with its input and cache counts. */
  predicate Starts(f: Frame) {
    f.message.input > 0 || f.message.cacheRead > 0 || f.message.cacheCreation > 0
  }

  /** Whether a frame carries usage of the kind a provider sends. */
  predicate Carries(p: Provider, f: Frame) {
    match p
    case OpenAI => f.usage.prompt > 0 || f.usage.completion > 0
    case Anthropic => Starts(f) || f.usage.output > 0
    case Gemini => f.metadata.prompt > 0 || f.metadata.candidates > 0
    case Other => false
  }

  /** Cache writes of five minutes, which are all of them where a message does not tell the two kinds apart. */
  function ShortWrites(m: RawUsage): int {
    if m.ephemeral5m == 0 && m.ephemeral1h == 0 then m.cacheCreation else m.ephemeral5m
  }

  function Merged(p: Provider, u: Usage, f: Frame): Usage {
    match p
    case OpenAI => u.(input := f.usage.prompt, cacheRead := f.usage.cached, output := f.usage.completion)
    case Anthropic =>
      var m := f.message;
      var u1 := if Starts(f) then
                  u.(input := m.input, cacheRead := m.cacheRead,
                     cacheWrite5m := ShortWrites(m), cacheWrite1h := m.ephemeral1h)
                else u;
      if f.usage.output > 0 then u1.(output := f.usage.output) else u1
    case Gemini =>
      var m := f.metadata;
      u.(input := m.prompt, cacheRead := m.cached, output := m.candidates + m.thoughts)
    case Other => u
  }

  function Consumed(p: Provider, m: Meter, f: Option<Frame>): Meter {
    if f.None? then m
    else
      var named := if ModelOf(f.value) == "" then m else m.(model := ModelOf(f.value));
      if Carries(p, f.value) then named.(usage := Merged(p, m.usage, f.value), got := true) else named
  }

  // Lines.

  /** The terminated lines of a stream, without their terminators. */
  function Lines(s: Bytes): seq<Bytes>
    decreases |s|
  {
    var i := LineEnd(s);
    if i == |s| then [] else [s[..i]] + Lines(s[i + 1..])
  }

  /** What comes after the last line feed. */
  function Unterminated(s: Bytes): Bytes
    decreases |s|
  {
    var i := LineEnd(s);
    if i == |s| then s else Unterminated(s[i + 1..])
  }

  // A reader, and what it makes of a stream.

  type Reading = Bytes -> Option<Frame>

  function Fold(p: Provider, read: Reading, m: Meter, lines: seq<Bytes>): Meter
    decreases |lines|
  {
    if lines == [] then m else Fold(p, read, Consumed(p, m, read(lines[0])), lines[1..])
  }

  datatype Sse = Sse(buf: Bytes, meter: Meter)

  /** One write: every line it completes is consumed, and too long a remainder is let go. */
  function Written(p: Provider, read: Reading, limit: nat, s: Sse, chunk: Bytes): (r: Sse)
    ensures |r.buf| <= limit
  {
    var all := s.buf + chunk;
    var rest := Unterminated(all);
    Sse(if |rest| > limit then [] else rest, Fold(p, read, s.meter, Lines(all)))
  }

  function WrittenAll(p: Provider, read: Reading, limit: nat, s: Sse, chunks: seq<Bytes>): Sse
    decreases |chunks|
  {
    if chunks == [] then s else WrittenAll(p, read, limit, Written(p, read, limit, s, chunks[0]), chunks[1..])
  }

  function Joined(chunks: seq<Bytes>): Bytes {
    if chunks == [] then [] else chunks[0] + Joined(chunks[1..])
  }

  predicate ShortLines(limit: nat, lines: seq<Bytes>) {
    forall i :: 0 <= i < |lines| ==> |lines[i]| <= limit
  }

  // Lines of a stream cut in two.

  /** The first line of a stream is its first line, however the stream goes on. */
  lemma FirstLineStays(a: Bytes, b: Bytes)
    requires LineEnd(a) < |a|
    ensures
      var i := LineEnd(a);
      LineEnd(a + b) == i && (a + b)[..i] == a[..i] && (a + b)[i + 1..] == a[i + 1..] + b
  {
    assert (a + b)[..LineEnd(a)] == a[..LineEnd(a)];
    EndsAt(a + b, LineEnd(a));
  }

  lemma FirstLine(s: Bytes)
    ensures var i := LineEnd(s); Lines(s) == if i == |s| then [] else [s[..i]] + Lines(s[i + 1..])
    ensures var i := LineEnd(s); Unterminated(s) == if i == |s| then s else Unterminated(s[i + 1..])
  {
    hide *;
    FirstOfLines(s);
    FirstOfRest(s);
  }

  lemma FirstOfLines(s: Bytes)
    ensures var i := LineEnd(s); Lines(s) == if i == |s| then [] else [s[..i]] + Lines(s[i + 1..])
  {
    hide LineEnd;
  }

  lemma FirstOfRest(s: Bytes)
    ensures var i := LineEnd(s); Unterminated(s) == if i == |s| then s else Unterminated(s[i + 1..])
  {
    hide LineEnd;
  }

  lemma InTurn(a: seq<Bytes>, b: seq<Bytes>, c: seq<Bytes>)
    ensures a + (b + c) == (a + b) + c
  {
  }

  lemma {:induction false} LinesJoin(a: Bytes, b: Bytes)
    ensures Lines(a + b) == Lines(a) + Lines(Unterminated(a) + b)
    ensures Unterminated(a + b) == Unterminated(Unterminated(a) + b)
    decreases |a|
  {
    hide LineEnd, Lines, Unterminated;
    FirstLine(a);
    var i := LineEnd(a);
    if i < |a| {
      FirstLineStays(a, b);
      FirstLine(a + b);
      LinesJoin(a[i + 1..], b);
      InTurn([a[..i]], Lines(a[i + 1..]), Lines(Unterminated(a) + b));
    }
  }

  lemma {:induction false} FoldJoin(p: Provider, read: Reading, m: Meter, a: seq<Bytes>, b: seq<Bytes>)
    ensures Fold(p, read, m, a + b) == Fold(p, read, Fold(p, read, m, a), b)
    decreases |a|
  {
    if a == [] {
      assert a + b == b;
    } else {
      assert (a + b)[1..] == a[1..] + b;
      FoldJoin(p, read, Consumed(p, m, read(a[0])), a[1..], b);
    }
  }

  /** A line feed in b ends a line that all of rest belongs to. */
  lemma FirstLineSpans(rest: Bytes, b: Bytes)
    ensures LF !in rest && LF in b ==> Lines(rest + b) != [] && |Lines(rest + b)[0]| >= |rest|
  {
    if LF !in rest && LF in b {
      var j := LineEnd(b);
      FeedFound(b);
      assert (rest + b)[..|rest| + j] == rest + b[..j];
      EndsAt(rest + b, |rest| + j);
    }
  }

  /** A remainder longer than the limit becomes a line longer than the limit, if it is ever terminated. */
  lemma LongRemainder(limit: nat, rest: Bytes, b: Bytes)
    requires |rest| > limit && LF !in rest && ShortLines(limit, Lines(rest + b))
    ensures LF !in b
  {
    FirstLineSpans(rest, b);
  }

  lemma {:induction false} NoTerminator(s: Bytes)
    ensures LF !in Unterminated(s)
    decreases |s|
  {
    var i := LineEnd(s);
    if i < |s| {
      NoTerminator(s[i + 1..]);
    } else {
      assert s[..i] == s;
    }
  }

  lemma NoLines(s: Bytes)
    requires LF !in s
    ensures Lines(s) == [] && Unterminated(s) == s
  {
    EndsAt(s, |s|);
  }

  /** Once nothing more is terminated, nothing more is consumed. */
  lemma {:induction false} NothingConsumed(p: Provider, read: Reading, limit: nat, s: Sse, chunks: seq<Bytes>)
    requires LF !in s.buf && LF !in Joined(chunks)
    ensures WrittenAll(p, read, limit, s, chunks).meter == s.meter
    decreases |chunks|
  {
    if chunks != [] {
      assert forall b <- chunks[0] :: b in Joined(chunks);
      assert forall b <- Joined(chunks[1..]) :: b in Joined(chunks);
      NoLines(s.buf + chunks[0]);
      NothingConsumed(p, read, limit, Written(p, read, limit, s, chunks[0]), chunks[1..]);
    }
  }

  lemma ShortToTheEnd(limit: nat, first: seq<Bytes>, later: seq<Bytes>)
    requires ShortLines(limit, first + later)
    ensures ShortLines(limit, later)
  {
    assert forall i :: 0 <= i < |later| ==> later[i] == (first + later)[|first| + i];
  }

  /** However the rest of a stream is cut, what is consumed is its lines, from where the buffer stands. */
  lemma {:induction false} ConsumesLines(p: Provider, read: Reading, limit: nat, s: Sse, chunks: seq<Bytes>)
    requires LF !in s.buf && ShortLines(limit, Lines(s.buf + Joined(chunks)))
    ensures WrittenAll(p, read, limit, s, chunks).meter == Fold(p, read, s.meter, Lines(s.buf + Joined(chunks)))
    decreases |chunks|
  {
    hide ShortLines;
    if chunks == [] {
      assert s.buf + Joined(chunks) == s.buf;
      NoLines(s.buf);
    } else {
      var all, more := s.buf + chunks[0], Joined(chunks[1..]);
      var rest, s' := Unterminated(all), Written(p, read, limit, s, chunks[0]);
      assert s.buf + Joined(chunks) == all + more;
      LinesJoin(all, more);
      FoldJoin(p, read, s.meter, Lines(all), Lines(rest + more));
      NoTerminator(all);
      ShortToTheEnd(limit, Lines(all), Lines(rest + more));
      if |rest| > limit {
        LongRemainder(limit, rest, more);
        NoLines(rest + more);
        NothingConsumed(p, read, limit, s', chunks[1..]);
      } else {
        ConsumesLines(p, read, limit, s', chunks[1..]);
      }
    }
  }

  /** The same stream, a byte at a time. */
  function Bytewise(s: Bytes): (r: seq<Bytes>)
    ensures Joined(r) == s
  {
    if s == [] then [] else [[s[0]]] + Bytewise(s[1..])
  }

  /** One byte completes at most the line in the buffer. */
  lemma OneByte(p: Provider, read: Reading, limit: nat, s: Sse, b: Byte)
    requires |s.buf| <= limit && LF !in s.buf && forall line :: |line| <= limit ==> read(line) == None
    ensures var s' := Written(p, read, limit, s, [b]); s'.meter == s.meter && LF !in s'.buf
  {
    var all := s.buf + [b];
    if b == LF {
      assert all[..|s.buf|] == s.buf && all[|s.buf| + 1..] == [];
      EndsAt(all, |s.buf|);
      NoLines([]);
      assert Lines(all) == [s.buf] && Unterminated(all) == [];
      assert Fold(p, read, s.meter, [s.buf]) == s.meter;
    } else {
      NoLines(all);
    }
  }

  /** A byte at a time, no line longer than the limit is ever consumed. */
  lemma {:induction false} LongLinesNeverConsumed(p: Provider, read: Reading, limit: nat, s: Sse, stream: Bytes)
    requires |s.buf| <= limit && LF !in s.buf && forall line :: |line| <= limit ==> read(line) == None
    ensures WrittenAll(p, read, limit, s, Bytewise(stream)).meter == s.meter
    decreases |stream|
  {
    hide Written;
    if stream != [] {
      OneByte(p, read, limit, s, stream[0]);
      assert Bytewise(stream)[1..] == Bytewise(stream[1..]);
      LongLinesNeverConsumed(p, read, limit, Written(p, read, limit, s, [stream[0]]), stream[1..]);
    }
  }

  /** A reading that sees a model named on one line only. */
  function Only(line: Bytes): Reading {
    var raw := RawUsage(0, 0, 0, 0, 0, 0, 0, 0, 0);
    (l: Bytes) => if l == line then Some(Frame("named", "", "", raw, raw, Metadata(0, 0, 0, 0))) else None
  }

  lemma {:induction false} OnlyNames(p: Provider, line: Bytes, m: Meter, lines: seq<Bytes>)
    ensures Fold(p, Only(line), m, lines).model == if line in lines then "named" else m.model
    decreases |lines|
  {
    if lines != [] {
      OnlyNames(p, line, Consumed(p, m, Only(line)(lines[0])), lines[1..]);
    }
  }

  /** What was read is the stream's own lines folded, whatever the cut. */
  ghost predicate Independent(p: Provider, limit: nat, stream: Bytes) {
    forall read: Reading, chunks :: Joined(chunks) == stream ==>
      WrittenAll(p, read, limit, Sse([], NOTHING), chunks).meter == Fold(p, read, NOTHING, Lines(stream))
  }

  /**
    Any two ways of cutting a stream into writes read the same usage, model and got flag, those
    of its terminated lines in order, whatever lines say, exactly when no terminated line is
    longer than the limit.
   */
  lemma {:induction false} IndependentOfChunking(p: Provider, limit: nat, stream: Bytes)
    ensures Independent(p, limit, stream) <==> ShortLines(limit, Lines(stream))
  {
    if ShortLines(limit, Lines(stream)) {
      forall read: Reading, chunks | Joined(chunks) == stream
        ensures WrittenAll(p, read, limit, Sse([], NOTHING), chunks).meter == Fold(p, read, NOTHING, Lines(stream))
      {
        assert [] + Joined(chunks) == stream;
        ConsumesLines(p, read, limit, Sse([], NOTHING), chunks);
      }
    } else {
      var i :| 0 <= i < |Lines(stream)| && |Lines(stream)[i]| > limit;
      var line := Lines(stream)[i];
      LongLinesNeverConsumed(p, Only(line), limit, Sse([], NOTHING), stream);
      OnlyNames(p, line, NOTHING, Lines(stream));
      assert WrittenAll(p, Only(line), limit, Sse([], NOTHING), Bytewise(stream)).meter
          != Fold(p, Only(line), NOTHING, Lines(stream));
    }
  }

  // What the frames add up to.

  /** The last frame of a stream that carries something. */
  function LastOf(read: Reading, lines: seq<Bytes>, kind: Frame -> bool): Option<Frame> {
    if lines == [] then None
    else
      var f := read(lines[|lines| - 1]);
      if f.Some? && kind(f.value) then f else LastOf(read, lines[..|lines| - 1], kind)
  }

  lemma FoldLast(p: Provider, read: Reading, m: Meter, lines: seq<Bytes>)
    requires lines != []
    ensures Fold(p, read, m, lines) == Consumed(p, Fold(p, read, m, lines[..|lines| - 1]), read(lines[|lines| - 1]))
  {
    var last := [lines[|lines| - 1]];
    assert lines == lines[..|lines| - 1] + last;
    FoldJoin(p, read, m, lines[..|lines| - 1], last);
    assert last[1..] == [];
  }

  lemma LastIs(read: Reading, lines: seq<Bytes>, kind: Frame -> bool)
    requires lines != []
    ensures
      var f := read(lines[|lines| - 1]);
      LastOf(read, lines, kind) == if f.Some? && kind(f.value) then f else LastOf(read, lines[..|lines| - 1], kind)
  {
  }

  /** Frames with the counts of a message Anthropic opens, and those with its output so far. */
  function Opening(): Frame -> bool {
    (f: Frame) => !(f.message.input <= 0 && f.message.cacheRead <= 0 && f.message.cacheCreation <= 0)
  }

  function WithOutput(): Frame -> bool {
    (f: Frame) => f.usage.output > 0
  }

  /** Frames that say what a provider's call used: a count of tokens in or out that is not nought, as it sends them. */
  function Carrying(p: Provider): Frame -> bool {
    (f: Frame) =>
      (p.OpenAI? && !(f.usage.prompt <= 0 && f.usage.completion <= 0))
      || (p.Gemini? && !(f.metadata.prompt <= 0 && f.metadata.candidates <= 0))
      || (p.Anthropic? && (Opening()(f) || WithOutput()(f)))
  }

  lemma CarriesWhatIsSent(p: Provider, f: Frame)
    ensures Carrying(p)(f) == Carries(p, f)
  {
    assert Opening()(f) == Starts(f);
  }

  /** Usage was got exactly when some frame carried it; OpenAI's and Gemini's is the last one sent. */
  lemma {:induction false} UsageIsTheLastSent(p: Provider, read: Reading, lines: seq<Bytes>)
    ensures
      var m, carrier := Fold(p, read, NOTHING, lines), LastOf(read, lines, Carrying(p));
      && (m.got <==> carrier.Some?)
      && (carrier.Some? && p.OpenAI? ==>
            var u := carrier.value.usage; m.usage == Usage(u.prompt, u.completion, u.cached, 0, 0))
      && (carrier.Some? && p.Gemini? ==>
            var u := carrier.value.metadata; m.usage == Usage(u.prompt, u.candidates + u.thoughts, u.cached, 0, 0))
      && (p.OpenAI? || p.Gemini? ==> m.usage.cacheWrite5m == m.usage.cacheWrite1h == 0)
    decreases |lines|
  {
    if lines != [] {
      hide Fold, LastOf;
      FoldLast(p, read, NOTHING, lines);
      LastIs(read, lines, Carrying(p));
      UsageIsTheLastSent(p, read, lines[..|lines| - 1]);
      var f := read(lines[|lines| - 1]);
      if f.Some? {
        CarriesWhatIsSent(p, f.value);
      }
    }
  }

  /** Anthropic's input and cache counts are those of the last message opened, its output the last one sent. */
  lemma {:induction false} AnthropicMergesTwo(read: Reading, lines: seq<Bytes>)
    ensures
      var u, open := Fold(Anthropic, read, NOTHING, lines).usage, LastOf(read, lines, Opening());
      var closing := LastOf(read, lines, WithOutput());
      && u.input == (if open.Some? then open.value.message.input else 0)
      && u.cacheRead == (if open.Some? then open.value.message.cacheRead else 0)
      && (open.Some? ==>
            var m := open.value.message;
            u.cacheWrite5m == if m.ephemeral5m != 0 || m.ephemeral1h != 0 then m.ephemeral5m else m.cacheCreation)
      && (open.None? ==> u.cacheWrite5m == 0)
      && u.cacheWrite1h == (if open.Some? then open.value.message.ephemeral1h else 0)
      && u.output == (if closing.Some? then closing.value.usage.output else 0)
    decreases |lines|
  {
    if lines != [] {
      hide Fold, LastOf;
      FoldLast(Anthropic, read, NOTHING, lines);
      LastIs(read, lines, Opening());
      LastIs(read, lines, WithOutput());
      AnthropicMergesTwo(read, lines[..|lines| - 1]);
    } else {
      EmptyStream(Anthropic, read);
    }
  }

  /** The name a frame gives its model: the first it has of a chunk's, a message's and a version's. */
  function NameIn(f: Frame): string {
    var names := (if f.model == "" then [] else [f.model]) + (if f.messageModel == "" then [] else [f.messageModel])
                 + [f.modelVersion];
    names[0]
  }

  function Naming(): Frame -> bool {
    f => NameIn(f) != ""
  }

  /** The model read is the one the last frame that names any names. */
  lemma {:induction false} ModelIsTheLastNamed(p: Provider, read: Reading, lines: seq<Bytes>)
    ensures
      var named := LastOf(read, lines, Naming());
      Fold(p, read, NOTHING, lines).model == if named.Some? then NameIn(named.value) else ""
    decreases |lines|
  {
    if lines != [] {
      hide Fold, LastOf;
      FoldLast(p, read, NOTHING, lines);
      LastIs(read, lines, Naming());
      ModelIsTheLastNamed(p, read, lines[..|lines| - 1]);
    }
  }

  /** A provider that is none of these is read for its model alone. */
  lemma {:induction false} OthersSendNoUsage(read: Reading, lines: seq<Bytes>)
    ensures Fold(Other, read, NOTHING, lines).usage == Usage(0, 0, 0, 0, 0) && !Fold(Other, read, NOTHING, lines).got
    decreases |lines|
  {
    if lines != [] {
      hide Fold;
      FoldLast(Other, read, NOTHING, lines);
      OthersSendNoUsage(read, lines[..|lines| - 1]);
    }
  }

  lemma EmptyStream(p: Provider, read: Reading)
    ensures Fold(p, read, NOTHING, []) == NOTHING && LastOf(read, [], Opening()) == None && LastOf(read, [], WithOutput()) == None
  {
  }

  // The reader, as it runs.

  class SseUsage {
    const provider: Provider
    const limit: nat
    const frameOf: Reading
    var buf: Bytes
    var meter: Meter

    ghost function State(): Sse
      reads this
    {
      Sse(buf, meter)
    }

    constructor (p: Provider, max: nat, read: Reading)
      ensures State() == Sse([], NOTHING) && provider == p && limit == max && frameOf == read
    {
      provider, limit, frameOf, buf, meter := p, max, read, [], NOTHING;
    }

    /** Consumes each line the chunk completes; a remainder longer than the limit is dropped. */
    method Write(chunk: Bytes)
      modifies this
      ensures State() == Written(provider, frameOf, limit, old(State()), chunk)
      ensures |buf| <= limit
    {
      buf := buf + chunk;
      ghost var all := buf;
      while true
        invariant Fold(provider, frameOf, old(meter), Lines(all)) == Fold(provider, frameOf, meter, Lines(buf))
        invariant Unterminated(all) == Unterminated(buf)
        decreases |buf|
      {
        var i := LineEnd(buf);
        if i == |buf| {
          break;
        }
        var line := buf[..i];
        buf := buf[i + 1..];
        Consume(line);
      }
      if |buf| > limit {
        buf := [];
      }
    }

    method Consume(line: Bytes)
      modifies this`meter
      ensures meter == Consumed(provider, old(meter), frameOf(line))
    {
      var f := frameOf(line);
      if f.None? {
        return;
      }
      var frame := f.value;
      if frame.model != "" {
        meter := meter.(model := frame.model);
      } else if frame.messageModel != "" {
        meter := meter.(model := frame.messageModel);
      } else if frame.modelVersion != "" {
        meter := meter.(model := frame.modelVersion);
      }
      var u := meter.usage;
      match provider {
        case OpenAI =>
          var raw := frame.usage;
          if raw.prompt > 0 || raw.completion > 0 {
            u := u.(input := raw.prompt, cacheRead := raw.cached, output := raw.completion);
            meter := meter.(usage := u, got := true);
          }
        case Anthropic =>
          var start := frame.message;
          if start.input > 0 || start.cacheRead > 0 || start.cacheCreation > 0 {
            var w5, w1 := start.ephemeral5m, start.ephemeral1h;
            if w5 == 0 && w1 == 0 {
              w5 := start.cacheCreation;
            }
            u := u.(input := start.input, cacheRead := start.cacheRead, cacheWrite5m := w5, cacheWrite1h := w1);
            meter := meter.(usage := u, got := true);
          }
          if frame.usage.output > 0 {
            meter := meter.(usage := meter.usage.(output := frame.usage.output), got := true);
          }
        case Gemini =>
          var m := frame.metadata;
          if m.prompt > 0 || m.candidates > 0 {
            u := u.(input := m.prompt, cacheRead := m.cached, output := m.candidates + m.thoughts);
            meter := meter.(usage := u, got := true);
          }
        case Other =>
      }
    }
  }
}

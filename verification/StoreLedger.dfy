/**
  What the store's tallies mean: a run's calls in flight are its reserved tokens not yet
  settled, its calls its recorded tokens, its spend the sum of their costs, however often each
  script is sent; and the call cap, kept by the store for all replicas at once. Tokens of calls
  without a run are accounted for in the same way, bucket by bucket.
 */
module StoreLedger {
  import opened Money
  import opened Store

  /** The effects that bear on tokens and tallies. */
  datatype Kind = Admission | Forced | Recording | Giveback | Wipe

  /** Where the token of an effect is marked; a wipe is of a run. */
  function EntryPlace(e: Entry): Place {
    if e.Wiped? then InRun(e.run) else PlaceOf(e.run, e.key, e.tok)
  }

  predicate Is(e: Entry, kind: Kind, x: Place) {
    EntryPlace(e) == x &&
    match kind
    case Admission => e.Admitted?
    case Forced => e.Admitted? && e.forced
    case Recording => e.Recorded?
    case Giveback => e.Released?
    case Wipe => e.Wiped?
  }

  /** How many effects of a kind the store's history holds for x. */
  function Count(log: seq<Entry>, kind: Kind, x: Place): nat {
    if log == [] then 0
    else Count(log[..|log| - 1], kind, x) + if Is(log[|log| - 1], kind, x) then 1 else 0
  }

  /** The dollars recorded for x. */
  function Sum(log: seq<Entry>, x: Place): int {
    if log == [] then 0
    else Sum(log[..|log| - 1], x) + if Is(log[|log| - 1], Recording, x) then log[|log| - 1].cost else 0
  }

  /** Tokens whose calls the store was told to give back. */
  function GivenBack(log: seq<Entry>, x: Place): set<Token> {
    if log == [] then {}
    else GivenBack(log[..|log| - 1], x) + if Is(log[|log| - 1], Giveback, x) then {log[|log| - 1].tok} else {}
  }

  lemma LogGrows(log: seq<Entry>, e: Entry, x: Place)
    ensures GivenBack(log + [e], x) == GivenBack(log, x) + if Is(e, Giveback, x) then {e.tok} else {}
    ensures forall kind: Kind :: Count(log + [e], kind, x) == Count(log, kind, x) + if Is(e, kind, x) then 1 else 0
    ensures Sum(log + [e], x) == Sum(log, x) + if Is(e, Recording, x) then e.cost else 0
  {
    assert (log + [e])[..|log|] == log;
  }

  /** Tokens the store reserved a call for. */
  function ServedTokens(t: Tokens): set<Token> {
    set tok | tok in t.admits && t.admits[tok].Served?
  }

  /** Tokens reserved and not settled: the calls out, as the store knows them. */
  function OpenTokens(t: Tokens): set<Token> {
    ServedTokens(t) - t.settled
  }

  /** Every served token was admitted once, and every settled one was served, and recorded or given back once. */
  ghost predicate TokensConserved(s: State, x: Place) {
    var t := TokensIn(s, x);
    && t.settled <= ServedTokens(t)
    && |ServedTokens(t)| == Count(s.log, Admission, x)
    && |t.settled| == Count(s.log, Recording, x) + Count(s.log, Giveback, x)
    && GivenBack(s.log, x) <= t.settled
    && |GivenBack(s.log, x)| == Count(s.log, Giveback, x)
  }

  /**
    While a run has never been resumed, its calls in flight are its open tokens, and its calls
    and dollars are those of its recorded tokens.
   */
  ghost predicate TalliesConserved(s: State, r: string) {
    var h, x := HashOf(s, r), InRun(r);
    Count(s.log, Wipe, x) == 0 ==>
      && h.inflight == |OpenTokens(h.tokens)|
      && h.calls == Count(s.log, Recording, x)
      && h.spend == Sum(s.log, x)
  }

  /** A run, or a bucket of calls without one, is accounted for to the token. */
  ghost predicate Conserved(s: State, x: Place) {
    TokensConserved(s, x) && (x.InRun? ==> TalliesConserved(s, x.run))
  }

  /** Only a token the store served is ever settled. */
  predicate SettlesServed(s: State, cmd: Command, x: Place) {
    IsSettlement(cmd) && PlaceOf(cmd.run, cmd.key, cmd.tok) == x ==> cmd.tok in ServedTokens(TokensIn(s, x))
  }

  /** A run's record without its cap and its pause. */
  function Bare(h: RunHash): RunHash {
    h.(cap := 0, paused := false, reason := NoCode)
  }

  /** The history, the tokens of x and, if it is a run, its tallies are the same. */
  predicate SameLedger(s: State, s': State, x: Place) {
    && s'.log == s.log && TokensIn(s', x) == TokensIn(s, x)
    && (x.InRun? ==> Bare(HashOf(s', x.run)) == Bare(HashOf(s, x.run)))
  }

  lemma ConservedFrame(s: State, s': State, x: Place)
    requires Conserved(s, x) && SameLedger(s, s', x)
    ensures Conserved(s', x)
  {
  }

  // Sets of tokens.

  lemma OneMoreIn(served: set<Token>, settled: set<Token>, tok: Token)
    requires settled <= served && tok !in served
    ensures |served + {tok}| == |served| + 1 && |served + {tok} - settled| == |served - settled| + 1
  {
    assert served + {tok} - settled == (served - settled) + {tok};
  }

  lemma OneMoreServed(t: Tokens, tok: Token)
    ensures ServedTokens(t.(admits := t.admits[tok := Served])) == ServedTokens(t) + {tok}
  {
  }

  lemma OneMoreOpen(t: Tokens, tok: Token)
    requires tok !in t.admits && t.settled <= ServedTokens(t)
    ensures
      var t' := t.(admits := t.admits[tok := Served]);
      |OpenTokens(t')| == |OpenTokens(t)| + 1 && |ServedTokens(t')| == |ServedTokens(t)| + 1 && t.settled <= ServedTokens(t')
  {
    OneMoreServed(t, tok);
    assert tok !in ServedTokens(t);
    hide ServedTokens;
    OneMoreIn(ServedTokens(t), t.settled, tok);
  }

  lemma OneFewerOpen(t: Tokens, tok: Token)
    requires tok in ServedTokens(t) && tok !in t.settled
    ensures
      var t' := t.(settled := t.settled + {tok});
      |OpenTokens(t')| + 1 == |OpenTokens(t)| && |t'.settled| == |t.settled| + 1 && ServedTokens(t') == ServedTokens(t)
  {
    var t' := t.(settled := t.settled + {tok});
    assert OpenTokens(t') == OpenTokens(t) - {tok};
  }

  lemma OneMoreGivenBack(back: set<Token>, settled: set<Token>, tok: Token)
    requires back <= settled && tok !in settled
    ensures |back + {tok}| == |back| + 1 && back + {tok} <= settled + {tok}
  {
  }

  lemma RefusedMark(t: Tokens, tok: Token, code: Code)
    requires tok !in t.admits
    ensures
      var t' := t.(admits := t.admits[tok := Refused(code)]);
      ServedTokens(t') == ServedTokens(t) && OpenTokens(t') == OpenTokens(t)
  {
  }

  lemma SettledStaysServed(t: Tokens, tok: Token)
    requires tok in ServedTokens(t) && t.settled <= ServedTokens(t)
    ensures t.settled + {tok} <= ServedTokens(t)
  {
  }

  // What each effect does to the tokens of a place, and to a run's tallies.

  lemma TokensPut(s: State, run: string, key: string, tok: Token, t: Tokens, x: Place)
    ensures TokensIn(PutTokens(s, run, key, tok, t), x) == if PlaceOf(run, key, tok) == x then t else TokensIn(s, x)
  {
  }

  lemma ReserveTokens(s: State, run: string, key: string, tok: Token, forced: bool, x: Place)
    ensures
      var t := TokensIn(s, x);
      TokensIn(Reserve(s, run, key, tok, forced), x)
      == if PlaceOf(run, key, tok) == x then t.(admits := t.admits[tok := Served]) else t
  {
    hide PutTokens;
    var s1 := HoldPlace(s, run, key);
    var t := TokensAt(s1, run, key, tok);
    HoldingTokens(s, run, key, x);
    HoldingTokens(s, run, key, PlaceOf(run, key, tok));
    TokensPut(s1, run, key, tok, t.(admits := t.admits[tok := Served]), x);
  }

  lemma HoldingTokens(s: State, run: string, key: string, x: Place)
    ensures TokensIn(HoldPlace(s, run, key), x) == TokensIn(s, x)
  {
  }

  lemma ReserveEffect(s: State, run: string, key: string, tok: Token, forced: bool, r: string)
    requires r != ""
    ensures
      var h, s' := HashOf(s, r), Reserve(s, run, key, tok, forced);
      && HashOf(s', r) == (if run == r then
                             h.(inflight := h.inflight + 1, tokens := h.tokens.(admits := h.tokens.admits[tok := Served]))
                           else h)
      && s'.log == s.log + [Admitted(run, key, tok, forced)]
  {
  }

  /** A pause made on the way moves no token, and leaves runs' tallies and the history as they were. */
  lemma PauseEffect(s: State, run: string, key: string, code: Code, r: string)
    ensures Bare(HashOf(PauseRun(s, run, code), r)) == Bare(HashOf(s, r)) && PauseRun(s, run, code).log == s.log
    ensures Bare(HashOf(PauseKey(s, key, code), r)) == Bare(HashOf(s, r)) && PauseKey(s, key, code).log == s.log
  {
  }

  lemma PauseTokens(s: State, run: string, key: string, code: Code, x: Place)
    ensures SameLedger(s, PauseRun(s, run, code), x) && SameLedger(s, PauseKey(s, key, code), x)
  {
  }

  lemma RollEffect(s: State, key: string, today: nat, r: string)
    ensures HashOf(RollKey(s, key, today), r) == HashOf(s, r)
    ensures RollKey(s, key, today).log == s.log && RollKey(s, key, today).buckets == s.buckets
  {
  }

  lemma RollTokens(s: State, key: string, today: nat, x: Place)
    ensures SameLedger(s, RollKey(s, key, today), x)
  {
  }

  lemma RecordEffect(l: Limits, s: State, run: string, key: string, cost: int, loop: bool, today: nat, tok: Token, r: string)
    requires r != "" && (run != "" || key != "") && !IsSettled(s, run, key, tok)
    ensures
      var h, s' := HashOf(s, r), Record(l, s, run, key, cost, loop, today, tok);
      && Bare(HashOf(s', r)) == Bare(if run != r then h else
                                       h.(calls := h.calls + 1, inflight := Control.Dec(h.inflight), spend := h.spend + cost,
                                          tokens := h.tokens.(settled := h.tokens.settled + {tok})))
      && s'.log == s.log + [Recorded(run, key, tok, cost)]
  {
    hide RunTripCode, ChargeKey, RollHash;
  }

  lemma RecordTokens(l: Limits, s: State, run: string, key: string, cost: int, loop: bool, today: nat, tok: Token, x: Place)
    requires (run != "" || key != "") && !IsSettled(s, run, key, tok)
    ensures
      var t := TokensIn(s, x);
      TokensIn(Record(l, s, run, key, cost, loop, today, tok), x)
      == if PlaceOf(run, key, tok) == x then t.(settled := t.settled + {tok}) else t
  {
    hide RunTripCode, ChargeKey, RollHash;
  }

  lemma ReleaseEffect(s: State, run: string, key: string, tok: Token, r: string)
    requires r != "" && (run != "" || key != "") && !IsSettled(s, run, key, tok)
    ensures
      var h, s' := HashOf(s, r), Release(s, run, key, tok);
      && HashOf(s', r) == (if run != r then h else
                             h.(inflight := Control.Dec(h.inflight), tokens := h.tokens.(settled := h.tokens.settled + {tok})))
      && s'.log == s.log + [Released(run, key, tok)]
  {
  }

  lemma ReleaseTokens(s: State, run: string, key: string, tok: Token, x: Place)
    requires (run != "" || key != "") && !IsSettled(s, run, key, tok)
    ensures
      var t := TokensIn(s, x);
      && TokensIn(Release(s, run, key, tok), x)
         == (if PlaceOf(run, key, tok) == x then t.(settled := t.settled + {tok}) else t)
      && Release(s, run, key, tok).log == s.log + [Released(run, key, tok)]
  {
  }

  // Conservation, effect by effect: of the tokens of a place, then of a run's tallies.

  lemma ServingConserves(s: State, s': State, x: Place, e: Entry)
    requires TokensConserved(s, x) && e.Admitted? && s'.log == s.log + [e]
    requires
      var t := TokensIn(s, x);
      TokensIn(s', x) == if EntryPlace(e) == x then t.(admits := t.admits[e.tok := Served]) else t
    requires EntryPlace(e) == x ==> e.tok !in TokensIn(s, x).admits
    ensures TokensConserved(s', x)
  {
    hide TokensIn, OpenTokens, ServedTokens, Count, GivenBack;
    LogGrows(s.log, e, x);
    if EntryPlace(e) == x {
      OneMoreOpen(TokensIn(s, x), e.tok);
    }
  }

  lemma SettlingConserves(s: State, s': State, x: Place, e: Entry)
    requires TokensConserved(s, x) && (e.Recorded? || e.Released?) && s'.log == s.log + [e]
    requires
      var t := TokensIn(s, x);
      TokensIn(s', x) == if EntryPlace(e) == x then t.(settled := t.settled + {e.tok}) else t
    requires EntryPlace(e) == x ==> var t := TokensIn(s, x); e.tok in ServedTokens(t) && e.tok !in t.settled
    ensures TokensConserved(s', x)
  {
    hide TokensIn, OpenTokens, ServedTokens, Count, GivenBack;
    LogGrows(s.log, e, x);
    if EntryPlace(e) == x {
      var t := TokensIn(s, x);
      OneFewerOpen(t, e.tok);
      SettledStaysServed(t, e.tok);
      OneMoreGivenBack(GivenBack(s.log, x), t.settled, e.tok);
    }
  }

  lemma ReserveConserves(s: State, run: string, key: string, tok: Token, forced: bool, x: Place)
    requires IsPlace(x) && Conserved(s, x) && tok !in TokensAt(s, run, key, tok).admits
    ensures Conserved(Reserve(s, run, key, tok, forced), x)
  {
    hide Reserve, OpenTokens, ServedTokens, Count, Sum, TokensConserved;
    var e := Admitted(run, key, tok, forced);
    ReserveTokens(s, run, key, tok, forced, x);
    ReserveLogs(s, run, key, tok, forced);
    ServingConserves(s, Reserve(s, run, key, tok, forced), x, e);
    if x.InRun? {
      LogGrows(s.log, e, x);
      ReserveEffect(s, run, key, tok, forced, x.run);
      if run == x.run {
        assert TokensIn(s, x).settled <= ServedTokens(TokensIn(s, x)) by { OnlyServedSettled(s, x); }
        OneMoreOpen(TokensIn(s, x), tok);
      }
    }
  }

  lemma ReserveLogs(s: State, run: string, key: string, tok: Token, forced: bool)
    ensures Reserve(s, run, key, tok, forced).log == s.log + [Admitted(run, key, tok, forced)]
  {
  }

  lemma OnlyServedSettled(s: State, x: Place)
    requires TokensConserved(s, x)
    ensures TokensIn(s, x).settled <= ServedTokens(TokensIn(s, x))
  {
  }

  lemma MarkRefusedConserves(s: State, run: string, key: string, tok: Token, code: Code, x: Place)
    requires IsPlace(x) && Conserved(s, x) && tok !in TokensAt(s, run, key, tok).admits
    ensures Conserved(MarkAdmit(s, run, key, tok, Refused(code)), x)
  {
    hide Count, Sum, GivenBack, OpenTokens, ServedTokens;
    if PlaceOf(run, key, tok) == x {
      RefusedMark(TokensIn(s, x), tok, code);
    }
  }

  /** An admission, whatever it decides and however often its token has been sent, keeps every place accounted for. */
  lemma AdmitConserves(l: Limits, s: State, run: string, key: string, mode: Mode, today: nat, tok: Token, x: Place)
    requires IsPlace(x) && (run != "" || key != "") && Conserved(s, x)
    ensures Conserved(Admit(l, s, run, key, mode, today, tok).0, x)
  {
    hide Conserved, Reserve, MarkAdmit, PauseRun, PauseKey, RollKey, VerdictOf, TokensIn;
    var s1 := RollKey(s, key, today);
    RollTokens(s, key, today, x);
    RollTokens(s, key, today, PlaceOf(run, key, tok));
    ConservedFrame(s, s1, x);
    if tok !in TokensAt(s, run, key, tok).admits && !s.killed {
      var v := VerdictOf(l, s1, run, key, mode);
      match v {
        case StopsKey(code) =>
          PauseTokens(s1, run, key, code, x);
          PauseTokens(s1, run, key, code, PlaceOf(run, key, tok));
          ConservedFrame(s1, PauseKey(s1, key, code), x);
          MarkRefusedConserves(PauseKey(s1, key, code), run, key, tok, code, x);
          ReserveConserves(PauseKey(s1, key, code), run, key, tok, mode == Bypassing, x);
        case StopsRun(code) =>
          PauseTokens(s1, run, key, code, x);
          PauseTokens(s1, run, key, code, PlaceOf(run, key, tok));
          ConservedFrame(s1, PauseRun(s1, run, code), x);
          MarkRefusedConserves(PauseRun(s1, run, code), run, key, tok, code, x);
          ReserveConserves(PauseRun(s1, run, code), run, key, tok, mode == Bypassing, x);
        case _ => ReserveConserves(s1, run, key, tok, mode == Bypassing, x);
      }
    }
  }

  lemma RecordConserves(l: Limits, s: State, run: string, key: string, cost: int, loop: bool, today: nat, tok: Token, x: Place)
    requires IsPlace(x) && (run != "" || key != "") && Conserved(s, x) && !IsSettled(s, run, key, tok)
    requires PlaceOf(run, key, tok) == x ==> tok in ServedTokens(TokensIn(s, x))
    ensures Conserved(Record(l, s, run, key, cost, loop, today, tok), x)
  {
    hide Record, Count, Sum, OpenTokens, ServedTokens, TokensConserved;
    var e, s' := Recorded(run, key, tok, cost), Record(l, s, run, key, cost, loop, today, tok);
    RecordTokens(l, s, run, key, cost, loop, today, tok, x);
    RecordLogs(l, s, run, key, cost, loop, today, tok);
    SettlingConserves(s, s', x, e);
    if x.InRun? {
      LogGrows(s.log, e, x);
      RecordEffect(l, s, run, key, cost, loop, today, tok, x.run);
      if run == x.run {
        OneFewerOpen(TokensIn(s, x), tok);
      }
    }
  }

  lemma RecordLogs(l: Limits, s: State, run: string, key: string, cost: int, loop: bool, today: nat, tok: Token)
    requires (run != "" || key != "") && !IsSettled(s, run, key, tok)
    ensures Record(l, s, run, key, cost, loop, today, tok).log == s.log + [Recorded(run, key, tok, cost)]
  {
    hide RunTripCode, ChargeKey, RollHash;
  }

  lemma ReleaseConserves(s: State, run: string, key: string, tok: Token, x: Place)
    requires IsPlace(x) && (run != "" || key != "") && Conserved(s, x) && !IsSettled(s, run, key, tok)
    requires PlaceOf(run, key, tok) == x ==> tok in ServedTokens(TokensIn(s, x))
    ensures Conserved(Release(s, run, key, tok), x)
  {
    hide Release, Count, Sum, OpenTokens, ServedTokens, TokensConserved;
    var e := Released(run, key, tok);
    ReleaseTokens(s, run, key, tok, x);
    SettlingConserves(s, Release(s, run, key, tok), x, e);
    if x.InRun? {
      LogGrows(s.log, e, x);
      ReleaseEffect(s, run, key, tok, x.run);
      if run == x.run {
        OneFewerOpen(TokensIn(s, x), tok);
      }
    }
  }

  lemma ResumeConserves(s: State, run: string, x: Place)
    requires IsPlace(x) && Conserved(s, x)
    ensures Conserved(ResumeRun(s, run), x)
  {
    hide Count, Sum, GivenBack, OpenTokens, ServedTokens;
    LogGrows(s.log, Wiped(run), x);
  }

  lemma OtherKeepsLedger(l: Limits, s: State, cmd: Command, today: nat, x: Place)
    requires !cmd.DoRecord? && !cmd.DoRelease? && !cmd.DoResumeRun?
    ensures SameLedger(s, Exec(l, s, cmd, today), x)
  {
  }

  /** Every command keeps x accounted for, whether it is carried out for the first time or again. */
  lemma ExecConserves(l: Limits, s: State, cmd: Command, today: nat, x: Place)
    requires IsPlace(x) && Conserved(s, x) && SettlesServed(s, cmd, x)
    ensures Conserved(Exec(l, s, cmd, today), x)
  {
    hide Record, Release, ResumeRun, Conserved, ServedTokens, TokensIn;
    match cmd {
      case DoRecord(run, key, tok, cost, loop) =>
        if IsSettlement(cmd) && !IsSettled(s, run, key, tok) {
          RecordConserves(l, s, run, key, cost, loop, today, tok, x);
        } else {
          Repeated(l, s, cmd, today);
        }
      case DoRelease(run, key, tok) =>
        if IsSettlement(cmd) && !IsSettled(s, run, key, tok) {
          ReleaseConserves(s, run, key, tok, x);
        } else {
          Repeated(l, s, cmd, today);
        }
      case DoResumeRun(run) => ResumeConserves(s, run, x);
      case _ =>
        OtherKeepsLedger(l, s, cmd, today, x);
        ConservedFrame(s, Exec(l, s, cmd, today), x);
    }
  }

  /** Sending a settlement again makes no difference, whichever of record and release it is. */
  lemma Repeated(l: Limits, s: State, cmd: Command, today: nat)
    requires cmd.DoRecord? || cmd.DoRelease?
    requires IsSettlement(cmd) ==> IsSettled(s, cmd.run, cmd.key, cmd.tok)
    ensures Exec(l, s, cmd, today) == s
  {
  }

  lemma ExecSettles(l: Limits, s: State, cmd: Command, today: nat)
    requires IsSettlement(cmd)
    ensures IsSettled(Exec(l, s, cmd, today), cmd.run, cmd.key, cmd.tok)
  {
    hide RunTripCode, ChargeKey, RollHash;
  }

  // Marks survive.

  predicate WasMarked(s: State, run: string, key: string, tok: Token, mark: Mark) {
    var t := TokensAt(s, run, key, tok);
    tok in t.admits && t.admits[tok] == mark
  }

  /** Where a token lives, nothing it was marked with has gone or changed. */
  ghost predicate MarksKept(s: State, s': State, run: string, key: string, tok: Token) {
    && (IsSettled(s, run, key, tok) ==> IsSettled(s', run, key, tok))
    && (forall mark :: WasMarked(s, run, key, tok, mark) ==> WasMarked(s', run, key, tok, mark))
  }

  /** Writing a run's or a key's tallies, or the history, moves no token. */
  lemma TalliesKeepMarks(
    s: State, run1: string, h: RunHash, key1: string, k: KeyHash, e: Entry, run: string, key: string, tok: Token)
    ensures h.tokens == HashOf(s, run1).tokens ==> MarksKept(s, PutRun(s, run1, h), run, key, tok)
    ensures MarksKept(s, PutKey(s, key1, k), run, key, tok)
    ensures MarksKept(s, Note(s, e), run, key, tok)
  {
  }

  /** One token marked, settled, served or refused for the first time. */
  lemma MarkingKeepsMarks(s: State, run1: string, key1: string, tok1: Token, mark: Mark, run: string, key: string, tok: Token)
    ensures MarksKept(s, MarkSettled(s, run1, key1, tok1), run, key, tok)
    ensures tok1 !in TokensAt(s, run1, key1, tok1).admits ==>
              MarksKept(s, MarkAdmit(s, run1, key1, tok1, mark), run, key, tok)
  {
    hide TokensIn, PutTokens;
    var t, x := TokensAt(s, run1, key1, tok1), PlaceOf(run, key, tok);
    TokensPut(s, run1, key1, tok1, t.(settled := t.settled + {tok1}), x);
    TokensPut(s, run1, key1, tok1, t.(admits := t.admits[tok1 := mark]), x);
  }

  lemma MarksStay(s: State, on: bool, run: string, key: string, tok: Token)
    ensures MarksKept(s, s, run, key, tok) && MarksKept(s, SetKilled(s, on), run, key, tok)
  {
  }

  lemma MarksChain(a: State, b: State, c: State, run: string, key: string, tok: Token)
    requires MarksKept(a, b, run, key, tok) && MarksKept(b, c, run, key, tok)
    ensures MarksKept(a, c, run, key, tok)
  {
  }

  lemma RecordKeepsMarks(
    l: Limits, s: State, run1: string, key1: string, cost: int, loop: bool, today: nat, tok1: Token,
    run: string, key: string, tok: Token)
    requires run1 != "" || key1 != ""
    ensures MarksKept(s, Record(l, s, run1, key1, cost, loop, today, tok1), run, key, tok)
  {
    hide MarksKept, MarkSettled, IsSettled, RollHash, ChargeKey, RunTripCode;
    MarksStay(s, false, run, key, tok);
    if !IsSettled(s, run1, key1, tok1) {
      var e := Recorded(run1, key1, tok1, cost);
      var s1 := MarkSettled(s, run1, key1, tok1);
      var h := ChargeRun(l, HashOf(s1, run1), cost, loop);
      var s2 := if run1 == "" then s1 else PutRun(s1, run1, h);
      var k := ChargeKey(l, RollHash(KeyHashOf(s2, key1), today), cost);
      var s3 := if key1 == "" then s2 else PutKey(s2, key1, k);
      MarkingKeepsMarks(s, run1, key1, tok1, Served, run, key, tok);
      TalliesKeepMarks(s1, run1, h, key1, k, e, run, key, tok);
      MarksStay(s1, false, run, key, tok);
      MarksChain(s, s1, s2, run, key, tok);
      TalliesKeepMarks(s2, run1, h, key1, k, e, run, key, tok);
      MarksStay(s2, false, run, key, tok);
      MarksChain(s, s2, s3, run, key, tok);
      TalliesKeepMarks(s3, run1, h, key1, k, e, run, key, tok);
      MarksChain(s, s3, Note(s3, e), run, key, tok);
    }
  }

  lemma ReleaseKeepsMarks(s: State, run1: string, key1: string, tok1: Token, run: string, key: string, tok: Token)
    requires run1 != "" || key1 != ""
    ensures MarksKept(s, Release(s, run1, key1, tok1), run, key, tok)
  {
    hide MarksKept, MarkSettled, IsSettled;
    MarksStay(s, false, run, key, tok);
    if !IsSettled(s, run1, key1, tok1) {
      var e := Released(run1, key1, tok1);
      var s1 := MarkSettled(s, run1, key1, tok1);
      var h := HashOf(s1, run1).(inflight := Control.Dec(HashOf(s1, run1).inflight));
      var s2 := if run1 == "" then s1 else PutRun(s1, run1, h);
      var k := KeyHashOf(s2, key1).(inflight := Control.Dec(KeyHashOf(s2, key1).inflight));
      var s3 := if key1 == "" || key1 !in s2.keys then s2 else PutKey(s2, key1, k);
      MarkingKeepsMarks(s, run1, key1, tok1, Served, run, key, tok);
      TalliesKeepMarks(s1, run1, h, key1, k, e, run, key, tok);
      MarksStay(s1, false, run, key, tok);
      MarksChain(s, s1, s2, run, key, tok);
      TalliesKeepMarks(s2, run1, h, key1, k, e, run, key, tok);
      MarksStay(s2, false, run, key, tok);
      MarksChain(s, s2, s3, run, key, tok);
      TalliesKeepMarks(s3, run1, h, key1, k, e, run, key, tok);
      MarksChain(s, s3, Note(s3, e), run, key, tok);
    }
  }

  lemma OtherKeepsMarks(l: Limits, s: State, cmd: Command, today: nat, run: string, key: string, tok: Token)
    requires !cmd.DoRecord? && !cmd.DoRelease?
    ensures MarksKept(s, Exec(l, s, cmd, today), run, key, tok)
  {
  }

  lemma ExecKeepsMarks(l: Limits, s: State, cmd: Command, today: nat, run: string, key: string, tok: Token)
    ensures MarksKept(s, Exec(l, s, cmd, today), run, key, tok)
  {
    hide MarksKept, Record, Release;
    MarksStay(s, false, run, key, tok);
    match cmd {
      case DoRecord(run1, key1, tok1, cost, loop) =>
        if IsSettlement(cmd) {
          RecordKeepsMarks(l, s, run1, key1, cost, loop, today, tok1, run, key, tok);
        }
      case DoRelease(run1, key1, tok1) =>
        if IsSettlement(cmd) {
          ReleaseKeepsMarks(s, run1, key1, tok1, run, key, tok);
        }
      case _ => OtherKeepsMarks(l, s, cmd, today, run, key, tok);
    }
  }

  lemma ReserveKeepsMarks(s: State, run1: string, key1: string, tok1: Token, forced: bool, run: string, key: string, tok: Token)
    requires tok1 !in TokensAt(s, run1, key1, tok1).admits
    ensures MarksKept(s, Reserve(s, run1, key1, tok1, forced), run, key, tok)
  {
    HoldingTokens(s, run1, key1, PlaceOf(run1, key1, tok1));
    hide MarksKept, MarkAdmit, TokensIn;
    var e := Admitted(run1, key1, tok1, forced);
    var h := HashOf(s, run1).(inflight := HashOf(s, run1).inflight + 1);
    var s1 := if run1 == "" then s else PutRun(s, run1, h);
    var k := KeyHashOf(s1, key1).(inflight := KeyHashOf(s1, key1).inflight + 1);
    var s2 := if key1 == "" then s1 else PutKey(s1, key1, k);
    var s3 := MarkAdmit(s2, run1, key1, tok1, Served);
    TalliesKeepMarks(s, run1, h, key1, k, e, run, key, tok);
    MarksStay(s, false, run, key, tok);
    TalliesKeepMarks(s1, run1, h, key1, k, e, run, key, tok);
    MarksStay(s1, false, run, key, tok);
    MarksChain(s, s1, s2, run, key, tok);
    MarkingKeepsMarks(s2, run1, key1, tok1, Served, run, key, tok);
    MarksChain(s, s2, s3, run, key, tok);
    TalliesKeepMarks(s3, run1, h, key1, k, e, run, key, tok);
    MarksChain(s, s3, Note(s3, e), run, key, tok);
  }

  /** A pause, a roll-over and the marking of a refusal. */
  lemma StoppingKeepsMarks(s: State, run1: string, key1: string, code: Code, today: nat, run: string, key: string, tok: Token)
    ensures MarksKept(s, PauseRun(s, run1, code), run, key, tok)
    ensures MarksKept(s, PauseKey(s, key1, code), run, key, tok)
    ensures MarksKept(s, RollKey(s, key1, today), run, key, tok)
  {
  }

  lemma AdmitKeepsMarks(
    l: Limits, s: State, run1: string, key1: string, mode: Mode, today: nat, tok1: Token, run: string, key: string, tok: Token)
    requires run1 != "" || key1 != ""
    ensures MarksKept(s, Admit(l, s, run1, key1, mode, today, tok1).0, run, key, tok)
  {
    hide MarksKept, MarkAdmit, Reserve, PauseRun, PauseKey, RollKey, VerdictOf;
    MarksStay(s, false, run, key, tok);
    if tok1 !in TokensAt(s, run1, key1, tok1).admits && !s.killed {
      var s1 := RollKey(s, key1, today);
      var v := VerdictOf(l, s1, run1, key1, mode);
      var code := if v.StopsKey? || v.StopsRun? then v.code else NoCode;
      var s2 := match v
        case StopsKey(_) => PauseKey(s1, key1, code)
        case StopsRun(_) => PauseRun(s1, run1, code)
        case _ => s1;
      StoppingKeepsMarks(s, run1, key1, code, today, run, key, tok);
      StoppingKeepsMarks(s1, run1, key1, code, today, run, key, tok);
      MarksStay(s1, false, run, key, tok);
      MarksChain(s, s1, s2, run, key, tok);
      RollTokens(s, key1, today, PlaceOf(run1, key1, tok1));
      PauseTokens(s1, run1, key1, code, PlaceOf(run1, key1, tok1));
      ReserveKeepsMarks(s2, run1, key1, tok1, mode == Bypassing, run, key, tok);
      MarksChain(s, s2, Reserve(s2, run1, key1, tok1, mode == Bypassing), run, key, tok);
      if v.StopsKey? || v.StopsRun? {
        MarkingKeepsMarks(s2, run1, key1, tok1, Refused(code), run, key, tok);
        MarksChain(s, s2, MarkAdmit(s2, run1, key1, tok1, Refused(code)), run, key, tok);
      }
    }
  }

  lemma {:induction false} MarksSurvive(l: Limits, s: State, xs: seq<Script>, run: string, key: string, tok: Token)
    ensures MarksKept(s, RanAll(l, s, xs), run, key, tok)
    decreases |xs|
  {
    hide MarksKept, Exec, Admit, SetKilled;
    MarksStay(s, false, run, key, tok);
    if xs != [] {
      var s1 := Ran(l, s, xs[0]);
      match xs[0] {
        case Asks(run1, key1, mode, tok1, today) =>
          if run1 != "" || key1 != "" {
            AdmitKeepsMarks(l, s, run1, key1, mode, today, tok1, run, key, tok);
          }
        case Does(cmd, today) => ExecKeepsMarks(l, s, cmd, today, run, key, tok);
        case Kills(on) => MarksStay(s, on, run, key, tok);
      }
      MarksSurvive(l, s1, xs[1..], run, key, tok);
      MarksChain(s, s1, RanAll(l, s1, xs[1..]), run, key, tok);
    }
  }

  /**
    Once a settlement has been carried out, no settlement with its token changes anything, whatever
    scripts any replica has sent in between and however much later.
   */
  lemma {:induction false} SettledOnce(l: Limits, s: State, cmd: Command, today: nat, xs: seq<Script>, again: Command, later: nat)
    requires IsSettlement(cmd) && IsSettlement(again)
    requires again.run == cmd.run && again.key == cmd.key && again.tok == cmd.tok
    ensures var s' := RanAll(l, Exec(l, s, cmd, today), xs); Exec(l, s', again, later) == s'
  {
    hide RanAll, Exec, IsSettled;
    var s1 := Exec(l, s, cmd, today);
    ExecSettles(l, s, cmd, today);
    MarksSurvive(l, s1, xs, cmd.run, cmd.key, cmd.tok);
    Repeated(l, RanAll(l, s1, xs), again, later);
  }

  /**
    An admission served once is served again by the same reservation, in whatever mode and however
    much later its token is sent, whatever scripts have run in between: a kill, a pause or a
    ceiling met meanwhile makes no difference to it.
   */
  lemma {:induction false} ServedOnce(
    l: Limits, s: State, run: string, key: string, mode: Mode, today: nat, tok: Token, xs: seq<Script>, mode': Mode, later: nat)
    requires (run != "" || key != "") && Admit(l, s, run, key, mode, today, tok).1.ok
    ensures
      var s' := RanAll(l, Admit(l, s, run, key, mode, today, tok).0, xs);
      Admit(l, s', run, key, mode', later, tok) == (s', Answer(true, NoCode, false, false))
  {
    var s1 := Admit(l, s, run, key, mode, today, tok).0;
    assert WasMarked(s1, run, key, tok, Served) by { ServedIsMarked(l, s, run, key, mode, today, tok); }
    hide RanAll, VerdictOf, RollKey, Carry;
    MarksSurvive(l, s1, xs, run, key, tok);
  }

  /**
    An admission that met a ceiling and was refused there is refused again with the same code, however late
    its token is sent again and whatever scripts have run in between, a resume included.
   */
  lemma {:induction false} RefusedOnce(
    l: Limits, s: State, run: string, key: string, today: nat, tok: Token, xs: seq<Script>, mode': Mode, later: nat)
    requires (run != "" || key != "") && tok !in TokensAt(s, run, key, tok).admits
    requires var a := Admit(l, s, run, key, Deciding, today, tok).1; !a.ok && a.stopped
    ensures
      var (s1, a) := Admit(l, s, run, key, Deciding, today, tok);
      var s' := RanAll(l, s1, xs);
      Admit(l, s', run, key, mode', later, tok) == (s', Answer(false, a.code, false, false))
  {
    var (s1, a) := Admit(l, s, run, key, Deciding, today, tok);
    assert WasMarked(s1, run, key, tok, Refused(a.code)) by { RefusedIsMarked(l, s, run, key, today, tok); }
    hide RanAll, VerdictOf, RollKey, Carry;
    MarksSurvive(l, s1, xs, run, key, tok);
  }

  lemma RefusedIsMarked(l: Limits, s: State, run: string, key: string, today: nat, tok: Token)
    requires (run != "" || key != "") && tok !in TokensAt(s, run, key, tok).admits
    requires var a := Admit(l, s, run, key, Deciding, today, tok).1; !a.ok && a.stopped
    ensures var (s1, a) := Admit(l, s, run, key, Deciding, today, tok); WasMarked(s1, run, key, tok, Refused(a.code))
  {
    hide VerdictOf, RollKey, PauseRun, PauseKey;
  }

  lemma ServedIsMarked(l: Limits, s: State, run: string, key: string, mode: Mode, today: nat, tok: Token)
    requires (run != "" || key != "") && Admit(l, s, run, key, mode, today, tok).1.ok
    ensures WasMarked(Admit(l, s, run, key, mode, today, tok).0, run, key, tok, Served)
  {
    hide VerdictOf, RollKey, PauseRun, PauseKey;
    var t := TokensAt(s, run, key, tok);
    if tok !in t.admits {
      var s1 := RollKey(s, key, today);
      var v := VerdictOf(l, s1, run, key, mode);
      var s2 := match v
        case StopsKey(code) => PauseKey(s1, key, code)
        case StopsRun(code) => PauseRun(s1, run, code)
        case _ => s1;
      ReserveMarks(s2, run, key, tok, mode == Bypassing);
    }
  }

  lemma ReserveMarks(s: State, run: string, key: string, tok: Token, forced: bool)
    requires run != "" || key != ""
    ensures
      var t := TokensAt(Reserve(s, run, key, tok, forced), run, key, tok);
      tok in t.admits && t.admits[tok].Served?
  {
  }

  // The call cap, kept for all replicas at once.

  /** Calls reserved and not given back, other than forced ones, against one cap per wipe and what the tallies show. */
  ghost predicate CallsKept(l: Limits, s: State, r: string) {
    var h := HashOf(s, r);
    Count(s.log, Admission, InRun(r)) - Count(s.log, Giveback, InRun(r)) - Count(s.log, Forced, InRun(r))
    <= Allowances(Count(s.log, Wipe, InRun(r)), l.maxCalls) + Min(h.calls + h.inflight, l.maxCalls)
  }

  lemma CallsFrame(l: Limits, s: State, s': State, r: string)
    requires CallsKept(l, s, r) && Bare(HashOf(s', r)) == Bare(HashOf(s, r)) && s'.log == s.log
    ensures CallsKept(l, s', r)
  {
  }

  lemma ReserveKeepsCalls(l: Limits, s: State, run: string, key: string, tok: Token, forced: bool, r: string)
    requires r != "" && l.maxCalls > 0 && CallsKept(l, s, r)
    requires run == r && !forced ==> RunCode(l, HashOf(s, r)) == NoCode
    ensures CallsKept(l, Reserve(s, run, key, tok, forced), r)
  {
    hide Reserve, Projected, Count;
    LogGrows(s.log, Admitted(run, key, tok, forced), InRun(r));
    ReserveEffect(s, run, key, tok, forced, r);
  }

  lemma AdmitKeepsCalls(l: Limits, s: State, run: string, key: string, mode: Mode, today: nat, tok: Token, r: string)
    requires r != "" && (run != "" || key != "") && l.maxCalls > 0 && mode != Shadowing && CallsKept(l, s, r)
    ensures CallsKept(l, Admit(l, s, run, key, mode, today, tok).0, r)
  {
    hide CallsKept, Reserve, PauseRun, PauseKey, RollKey, RunCode, KeyCode;
    var s1 := RollKey(s, key, today);
    RollEffect(s, key, today, r);
    CallsFrame(l, s, s1, r);
    if tok !in TokensAt(s, run, key, tok).admits && !s.killed {
      var v := VerdictOf(l, s1, run, key, mode);
      if v.StopsKey? {
        PauseEffect(s1, run, key, v.code, r);
        CallsFrame(l, s1, PauseKey(s1, key, v.code), r);
        MarkKeepsCalls(l, PauseKey(s1, key, v.code), run, key, tok, v.code, r);
      } else if v.StopsRun? {
        PauseEffect(s1, run, key, v.code, r);
        CallsFrame(l, s1, PauseRun(s1, run, v.code), r);
        MarkKeepsCalls(l, PauseRun(s1, run, v.code), run, key, tok, v.code, r);
      } else if v.Free? || mode != Deciding {
        ReserveKeepsCalls(l, s1, run, key, tok, mode == Bypassing, r);
      }
    }
  }

  lemma MarkKeepsCalls(l: Limits, s: State, run: string, key: string, tok: Token, code: Code, r: string)
    requires r != "" && CallsKept(l, s, r)
    ensures CallsKept(l, MarkAdmit(s, run, key, tok, Refused(code)), r)
  {
  }

  lemma RecordKeepsCalls(l: Limits, s: State, run: string, key: string, cost: int, loop: bool, today: nat, tok: Token, r: string)
    requires r != "" && (run != "" || key != "") && CallsKept(l, s, r) && !IsSettled(s, run, key, tok)
    ensures CallsKept(l, Record(l, s, run, key, cost, loop, today, tok), r)
  {
    hide Record, Count;
    RecordEffect(l, s, run, key, cost, loop, today, tok, r);
    LogGrows(s.log, Recorded(run, key, tok, cost), InRun(r));
  }

  lemma ReleaseKeepsCalls(l: Limits, s: State, run: string, key: string, tok: Token, r: string)
    requires r != "" && l.maxCalls > 0 && (run != "" || key != "") && CallsKept(l, s, r) && !IsSettled(s, run, key, tok)
    ensures CallsKept(l, Release(s, run, key, tok), r)
  {
    hide Release, Count;
    ReleaseEffect(s, run, key, tok, r);
    LogGrows(s.log, Released(run, key, tok), InRun(r));
  }

  lemma ResumeKeepsCalls(l: Limits, s: State, run: string, r: string)
    requires r != "" && l.maxCalls > 0 && CallsKept(l, s, r)
    ensures CallsKept(l, ResumeRun(s, run), r)
  {
    hide Count;
    LogGrows(s.log, Wiped(run), InRun(r));
  }

  lemma ExecKeepsCalls(l: Limits, s: State, cmd: Command, today: nat, r: string)
    requires r != "" && l.maxCalls > 0 && CallsKept(l, s, r)
    ensures CallsKept(l, Exec(l, s, cmd, today), r)
  {
    hide Record, Release, ResumeRun, CallsKept;
    match cmd {
      case DoRecord(run, key, tok, cost, loop) =>
        if IsSettlement(cmd) && !IsSettled(s, run, key, tok) {
          RecordKeepsCalls(l, s, run, key, cost, loop, today, tok, r);
        } else {
          Repeated(l, s, cmd, today);
        }
      case DoRelease(run, key, tok) =>
        if IsSettlement(cmd) && !IsSettled(s, run, key, tok) {
          ReleaseKeepsCalls(l, s, run, key, tok, r);
        } else {
          Repeated(l, s, cmd, today);
        }
      case DoResumeRun(run) => ResumeKeepsCalls(l, s, run, r);
      case _ => CallsFrame(l, s, Exec(l, s, cmd, today), r);
    }
  }
}

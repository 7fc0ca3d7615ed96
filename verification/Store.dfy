/**
  What each script makes of the store, as a function of records. A call is known by a token, marked
  where it was admitted and where it was settled: in its run's record, or in a bucket of its
  key's if it has no run. Figures are whole micro-dollars.
 */
module Store {
  import opened Money
  import opened Control

  /** A call's id: the UTC day it was drawn on, then a number no other call has. */
  datatype Token = Token(day: nat, id: nat)

  /** A stored reason. */
  datatype Code =
    | NoCode
    | Calls(max: int)
    | Spend(cap: int)
    | Loop
    | KLife(cap: int)
    | KDay(cap: int)
    | Text(reason: Reason)

  /** What an admission left beside its token: that it was served, or the code a ceiling refused it with. */
  datatype Mark = Served | Refused(code: Code)

  datatype Tokens = Tokens(admits: map<Token, Mark>, settled: set<Token>)

  datatype RunHash = RunHash(
    calls: nat, inflight: nat, spend: int, cap: int, paused: bool, reason: Code, tokens: Tokens)

  datatype Day = NoDay | OnDay(day: nat)

  datatype KeyHash = KeyHash(
    day: Day, dcalls: nat, dspend: int, lcalls: nat, lspend: int, inflight: nat,
    paused: bool, reason: Code, dp: bool)

  /** What the store has done, one entry per effect. No script reads it. */
  datatype Entry =
    | Admitted(run: string, key: string, tok: Token, forced: bool)
    | Recorded(run: string, key: string, tok: Token, cost: int)
    | Released(run: string, key: string, tok: Token)
    | Wiped(run: string)

  datatype Bucket = Bucket(key: string, day: nat)

  datatype State = State(
    killed: bool, runs: map<string, RunHash>, keys: map<string, KeyHash>,
    buckets: map<Bucket, Tokens>, log: seq<Entry>)

  const NO_TOKENS := Tokens(map[], {})
  const NO_RUN := RunHash(0, 0, 0, 0, false, NoCode, NO_TOKENS)
  const NO_KEY := KeyHash(NoDay, 0, 0, 0, 0, 0, false, NoCode, false)
  const EMPTY_STORE := State(false, map[], map[], map[], [])

  /** The policy as the scripts are given it. */
  datatype Limits = Limits(maxCalls: int, cap: int, floor: int, pauseOnLoop: bool, kday: int, klife: int)

  function LimitsOf(p: Policy): Limits {
    Limits(p.maxCalls, Micro(p.maxSpend), Micro(p.floor), p.pauseOnLoop, Micro(p.maxKeyDay), Micro(p.maxKey))
  }

  datatype Mode = Deciding | Bypassing | Shadowing

  function ModeOf(p: Policy, bypass: bool): Mode {
    if bypass then Bypassing else if p.shadow then Shadowing else Deciding
  }

  function HashOf(s: State, run: string): RunHash {
    if run in s.runs then s.runs[run] else NO_RUN
  }

  function KeyHashOf(s: State, key: string): KeyHash {
    if key in s.keys then s.keys[key] else NO_KEY
  }

  function PutRun(s: State, run: string, h: RunHash): State {
    s.(runs := s.runs[run := h])
  }

  function PutKey(s: State, key: string, k: KeyHash): State {
    s.(keys := s.keys[key := k])
  }

  function Note(s: State, e: Entry): State {
    s.(log := s.log + [e])
  }

  /** Where tokens are marked: in a run's record, or if a call has no run, in a bucket of its key's. */
  datatype Place = InRun(run: string) | InBucket(bucket: Bucket)

  predicate IsPlace(x: Place) {
    if x.InRun? then x.run != "" else x.bucket.key != ""
  }

  function PlaceOf(run: string, key: string, tok: Token): Place {
    if run != "" then InRun(run) else InBucket(Bucket(key, tok.day))
  }

  function TokensIn(s: State, x: Place): Tokens {
    match x
    case InRun(run) => HashOf(s, run).tokens
    case InBucket(b) => if b in s.buckets then s.buckets[b] else NO_TOKENS
  }

  function TokensAt(s: State, run: string, key: string, tok: Token): Tokens {
    TokensIn(s, PlaceOf(run, key, tok))
  }

  function PutTokens(s: State, run: string, key: string, tok: Token, t: Tokens): State {
    match PlaceOf(run, key, tok)
    case InRun(_) => PutRun(s, run, HashOf(s, run).(tokens := t))
    case InBucket(b) => s.(buckets := s.buckets[b := t])
  }

  function MarkAdmit(s: State, run: string, key: string, tok: Token, mark: Mark): State {
    var t := TokensAt(s, run, key, tok);
    PutTokens(s, run, key, tok, t.(admits := t.admits[tok := mark]))
  }

  // Keys.

  function RollHash(k: KeyHash, today: nat): KeyHash {
    if k.day.OnDay? && today <= k.day.day then k
    else
      var rolled := k.(day := OnDay(today), dcalls := 0, dspend := 0, inflight := 0);
      if k.dp then rolled.(paused := false, reason := NoCode, dp := false) else rolled
  }

  function RollKey(s: State, key: string, today: nat): State {
    if key == "" then s else PutKey(s, key, RollHash(KeyHashOf(s, key), today))
  }

  // Ceilings. The scripts compare without rounding.

  function CapOf(l: Limits, h: RunHash): int {
    if h.cap > 0 && (l.cap == 0 || h.cap < l.cap) then h.cap else l.cap
  }

  function RunCode(l: Limits, h: RunHash): Code {
    var cap := CapOf(l, h);
    if l.maxCalls > 0 && h.calls + h.inflight >= l.maxCalls then Calls(l.maxCalls)
    else if cap > 0 && Projected(l.floor as real, h.spend as real, h.calls, h.inflight) >= cap as real then Spend(cap)
    else NoCode
  }

  function KeyCode(l: Limits, k: KeyHash): Code {
    var reserved := Reserved(l.floor as real, k.lspend as real, k.lcalls, k.inflight);
    if l.klife > 0 && k.lspend as real + reserved >= l.klife as real then KLife(l.klife)
    else if l.kday > 0 && k.dspend as real + reserved >= l.kday as real then KDay(l.kday)
    else NoCode
  }

  function RunTripCode(l: Limits, h: RunHash, loop: bool): Code {
    var cap := CapOf(l, h);
    if l.maxCalls > 0 && h.calls >= l.maxCalls then Calls(l.maxCalls)
    else if cap > 0 && h.spend >= cap then Spend(cap)
    else if loop && l.pauseOnLoop then Loop
    else NoCode
  }

  function KeyTripCode(l: Limits, k: KeyHash): Code {
    if l.klife > 0 && k.lspend >= l.klife then KLife(l.klife)
    else if l.kday > 0 && k.dspend >= l.kday then KDay(l.kday)
    else NoCode
  }

  // Admission.

  /** How the script finds a call, its key rolled over to today. */
  datatype Verdict =
    | HeldRun | HeldKey      // paused already
    | StopsKey(code: Code) | StopsRun(code: Code)
    | Free

  function VerdictOf(l: Limits, s: State, run: string, key: string, mode: Mode): Verdict {
    var k, h := KeyHashOf(s, key), HashOf(s, run);
    if run != "" && h.paused then HeldRun
    else if key != "" && k.paused then HeldKey
    else if key != "" && mode != Bypassing && KeyCode(l, k) != NoCode then StopsKey(KeyCode(l, k))
    else if run != "" && mode != Bypassing && RunCode(l, h) != NoCode then StopsRun(RunCode(l, h))
    else Free
  }

  /** One more call in flight, on the run and on the key. */
  function HoldPlace(s: State, run: string, key: string): State {
    var s1 := if run == "" then s else PutRun(s, run, HashOf(s, run).(inflight := HashOf(s, run).inflight + 1));
    if key == "" then s1 else PutKey(s1, key, KeyHashOf(s1, key).(inflight := KeyHashOf(s1, key).inflight + 1))
  }

  function Reserve(s: State, run: string, key: string, tok: Token, forced: bool): State {
    Note(MarkAdmit(HoldPlace(s, run, key), run, key, tok, Served), Admitted(run, key, tok, forced))
  }

  function PauseRun(s: State, run: string, code: Code): State {
    PutRun(s, run, HashOf(s, run).(paused := true, reason := code))
  }

  function PauseKey(s: State, key: string, code: Code): State {
    PutKey(s, key, KeyHashOf(s, key).(paused := true, reason := code, dp := code.KDay?))
  }

  /** What the script answers: served or not, a reason code, whether this call made the pause. */
  datatype Answer = Answer(ok: bool, code: Code, stopped: bool, killed: bool)

  /** A call carried out as its verdict says: reserved if it is served, else marked if it was just stopped. */
  function Carry(s: State, v: Verdict, run: string, key: string, mode: Mode, tok: Token): (State, Answer) {
    var code := match v
      case HeldRun => HashOf(s, run).reason
      case HeldKey => KeyHashOf(s, key).reason
      case StopsKey(code) => code
      case StopsRun(code) => code
      case Free => NoCode;
    var s1 := match v
      case StopsKey(code) => PauseKey(s, key, code)
      case StopsRun(code) => PauseRun(s, run, code)
      case _ => s;
    var stopped := v.StopsKey? || v.StopsRun?;
    if v.Free? || mode != Deciding then
      (Reserve(s1, run, key, tok, mode == Bypassing),
       Answer(true, if mode == Bypassing then NoCode else code, stopped, false))
    else (if stopped then MarkAdmit(s1, run, key, tok, Refused(code)) else s1, Answer(false, code, stopped, false))
  }

  /** The admission script: a token seen before is answered as it was, and the kill switch looked at, first. */
  function Admit(l: Limits, s: State, run: string, key: string, mode: Mode, today: nat, tok: Token): (State, Answer)
    requires run != "" || key != ""
  {
    var t, s1 := TokensAt(s, run, key, tok), RollKey(s, key, today);
    if tok in t.admits then
      (s, if t.admits[tok].Served? then Answer(true, NoCode, false, false)
          else Answer(false, t.admits[tok].code, false, false))
    else if s.killed then (s, Answer(false, NoCode, false, true))
    else Carry(s1, VerdictOf(l, s1, run, key, mode), run, key, mode, tok)
  }

  // Settlement: once per token.

  predicate IsSettled(s: State, run: string, key: string, tok: Token) {
    tok in TokensAt(s, run, key, tok).settled
  }

  function MarkSettled(s: State, run: string, key: string, tok: Token): State {
    var t := TokensAt(s, run, key, tok);
    PutTokens(s, run, key, tok, t.(settled := t.settled + {tok}))
  }

  function ChargeRun(l: Limits, h: RunHash, cost: int, loop: bool): RunHash {
    var h1 := h.(inflight := Dec(h.inflight), calls := h.calls + 1, spend := h.spend + cost);
    var code := RunTripCode(l, h1, loop);
    if h.paused || code == NoCode then h1 else h1.(paused := true, reason := code)
  }

  function ChargeKey(l: Limits, k: KeyHash, cost: int): KeyHash {
    var k1 := k.(inflight := Dec(k.inflight), dcalls := k.dcalls + 1, dspend := k.dspend + cost,
                 lcalls := k.lcalls + 1, lspend := k.lspend + cost);
    var code := KeyTripCode(l, k1);
    if k.paused || code == NoCode then k1 else k1.(paused := true, reason := code, dp := code.KDay?)
  }

  function Record(l: Limits, s: State, run: string, key: string, cost: int, loop: bool, today: nat, tok: Token): State
    requires run != "" || key != ""
  {
    if IsSettled(s, run, key, tok) then s
    else
      var s1 := MarkSettled(s, run, key, tok);
      var s2 := if run == "" then s1 else PutRun(s1, run, ChargeRun(l, HashOf(s1, run), cost, loop));
      var s3 := if key == "" then s2 else PutKey(s2, key, ChargeKey(l, RollHash(KeyHashOf(s2, key), today), cost));
      Note(s3, Recorded(run, key, tok, cost))
  }

  /** One call in flight fewer, on the run and on a key there is. */
  function GiveUpPlace(s: State, run: string, key: string): State {
    var s1 := if run == "" then s else PutRun(s, run, HashOf(s, run).(inflight := Dec(HashOf(s, run).inflight)));
    if key == "" || key !in s1.keys then s1
    else PutKey(s1, key, s1.keys[key].(inflight := Dec(s1.keys[key].inflight)))
  }

  function Release(s: State, run: string, key: string, tok: Token): State
    requires run != "" || key != ""
  {
    if IsSettled(s, run, key, tok) then s
    else
      Note(GiveUpPlace(MarkSettled(s, run, key, tok), run, key), Released(run, key, tok))
  }

  // What operators and callers ask, and what a fallback's pause writes back.

  function SetCap(s: State, run: string, cap: int): State {
    PutRun(s, run, HashOf(s, run).(cap := cap))
  }

  function ResumeRun(s: State, run: string): State {
    var h := HashOf(s, run);
    if !h.paused then s
    else
      Note(PutRun(s, run, h.(paused := false, reason := NoCode, calls := 0, spend := 0, inflight := 0)), Wiped(run))
  }

  function ResumeKey(s: State, key: string): State {
    var k := KeyHashOf(s, key);
    var life := if k.dp then k else k.(lcalls := 0, lspend := 0);
    if !k.paused then s
    else
      PutKey(s, key, life.(paused := false, reason := NoCode, dp := false, dcalls := 0, dspend := 0, inflight := 0))
  }

  function WriteRunPause(s: State, run: string, reason: Reason): State {
    PauseRun(s, run, Text(reason))
  }

  /** A fallback's stop of a key. One for a day before the record's changes nothing. */
  function WriteKeyPause(s: State, key: string, reason: Reason, day: bool, onDay: nat): State {
    var k := KeyHashOf(s, key);
    var newer := day && (k.day.NoDay? || onDay > k.day.day);
    var k1 := if newer then k.(day := OnDay(onDay), dcalls := 0, dspend := 0, inflight := 0) else k;
    if day && k.day.OnDay? && onDay < k.day.day then s
    else PutKey(s, key, k1.(paused := true, reason := Text(reason), dp := day))
  }

  function SetKilled(s: State, on: bool): State {
    s.(killed := on)
  }

  // A script as it travels: to the store at once, or owed to it.

  datatype Command =
    | DoRecord(run: string, key: string, tok: Token, cost: int, loop: bool)
    | DoRelease(run: string, key: string, tok: Token)
    | DoSetCap(run: string, cap: int)
    | DoResumeRun(run: string)
    | DoResumeKey(key: string)
    | DoPauseRun(run: string, reason: Reason)
    | DoPauseKey(key: string, reason: Reason, day: bool, onDay: nat)

  predicate IsSettlement(cmd: Command) {
    (cmd.DoRecord? || cmd.DoRelease?) && (cmd.run != "" || cmd.key != "")
  }

  /** What a command makes of the store; a settlement that names neither run nor key makes nothing of it. */
  function Exec(l: Limits, s: State, cmd: Command, today: nat): State {
    match cmd
    case DoRecord(run, key, tok, cost, loop) =>
      if IsSettlement(cmd) then Record(l, s, run, key, cost, loop, today, tok) else s
    case DoRelease(run, key, tok) => if IsSettlement(cmd) then Release(s, run, key, tok) else s
    case DoSetCap(run, cap) => SetCap(s, run, cap)
    case DoResumeRun(run) => ResumeRun(s, run)
    case DoResumeKey(key) => ResumeKey(s, key)
    case DoPauseRun(run, reason) => WriteRunPause(s, run, reason)
    case DoPauseKey(key, reason, day, onDay) => WriteKeyPause(s, key, reason, day, onDay)
  }

  // Any scripts at all, from whichever replicas, one after another.

  datatype Script =
    | Asks(run: string, key: string, mode: Mode, tok: Token, today: nat)
    | Does(cmd: Command, today: nat)
    | Kills(on: bool)

  /** What one script makes of the store; an admission that names neither run nor key is not sent. */
  function Ran(l: Limits, s: State, x: Script): State {
    match x
    case Asks(run, key, mode, tok, today) => if run == "" && key == "" then s else Admit(l, s, run, key, mode, today, tok).0
    case Does(cmd, today) => Exec(l, s, cmd, today)
    case Kills(on) => SetKilled(s, on)
  }

  function RanAll(l: Limits, s: State, xs: seq<Script>): State
    decreases |xs|
  {
    if xs == [] then s else RanAll(l, Ran(l, s, xs[0]), xs[1..])
  }
}

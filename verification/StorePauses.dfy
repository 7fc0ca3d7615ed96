/** Who lifts a pause in the store: an operator, midnight for a daily one, and one script that should not. */
module StorePauses {
  import opened Money
  import opened Store
  import Control

  /** A key's pause on its total cap. */
  predicate TotalStopped(s: State, key: string) {
    KeyHashOf(s, key).paused && !KeyHashOf(s, key).dp
  }

  predicate RunStopped(s: State, run: string) {
    HashOf(s, run).paused
  }

  /** Writes back a daily pause of the key, made on the store's day or later. */
  predicate Overwrites(s: State, cmd: Command, key: string) {
    var k := KeyHashOf(s, key);
    cmd.DoPauseKey? && cmd.key == key && cmd.day && (k.day.NoDay? || cmd.onDay >= k.day.day)
  }

  /** Pauses of a run and of a key that stand as they stood. */
  predicate Stand(s: State, s': State, r: string, k: string) {
    && (RunStopped(s, r) ==> RunStopped(s', r) && HashOf(s', r).reason == HashOf(s, r).reason)
    && (TotalStopped(s, k) ==> TotalStopped(s', k) && KeyHashOf(s', k).reason == KeyHashOf(s, k).reason)
  }

  lemma RollHolds(s: State, key: string, today: nat, r: string, k: string)
    ensures Stand(s, RollKey(s, key, today), r, k)
  {
  }

  lemma StoppingHolds(l: Limits, s: State, run: string, key: string, mode: Mode, r: string, k: string)
    requires r != "" && k != ""
    ensures
      var v := VerdictOf(l, s, run, key, mode);
      && (v.StopsKey? ==> Stand(s, PauseKey(s, key, v.code), r, k))
      && (v.StopsRun? ==> Stand(s, PauseRun(s, run, v.code), r, k))
  {
    hide RunCode, KeyCode;
  }

  lemma MarkingHolds(s: State, run: string, key: string, tok: Token, mark: Mark, r: string, k: string)
    requires r != "" && k != ""
    ensures Stand(s, MarkAdmit(s, run, key, tok, mark), r, k)
  {
  }

  lemma ReservingHolds(s: State, run: string, key: string, tok: Token, forced: bool, r: string, k: string)
    requires r != "" && k != ""
    ensures Stand(s, Reserve(s, run, key, tok, forced), r, k)
  {
    hide MarkAdmit;
    var s1 := if run == "" then s else PutRun(s, run, HashOf(s, run).(inflight := HashOf(s, run).inflight + 1));
    var s2 := if key == "" then s1 else PutKey(s1, key, KeyHashOf(s1, key).(inflight := KeyHashOf(s1, key).inflight + 1));
    assert Stand(s, s1, r, k) && Stand(s1, s2, r, k);
    MarkingHolds(s2, run, key, tok, Served, r, k);
  }

  lemma AdmissionHolds(l: Limits, s: State, run: string, key: string, mode: Mode, today: nat, tok: Token, r: string, k: string)
    requires (run != "" || key != "") && r != "" && k != ""
    ensures Stand(s, Admit(l, s, run, key, mode, today, tok).0, r, k)
  {
    hide VerdictOf, PauseKey, PauseRun, Reserve, MarkAdmit, RollKey;
    var s1 := RollKey(s, key, today);
    var v := VerdictOf(l, s1, run, key, mode);
    var s2 := match v
      case StopsKey(code) => PauseKey(s1, key, code)
      case StopsRun(code) => PauseRun(s1, run, code)
      case _ => s1;
    RollHolds(s, key, today, r, k);
    StoppingHolds(l, s1, run, key, mode, r, k);
    ReservingHolds(s2, run, key, tok, mode == Bypassing, r, k);
    if v.StopsKey? || v.StopsRun? {
      MarkingHolds(s2, run, key, tok, Refused(v.code), r, k);
    }
  }

  lemma RecordHolds(
    l: Limits, s: State, run: string, key: string, cost: int, loop: bool, today: nat, tok: Token, r: string, k: string)
    requires (run != "" || key != "") && r != "" && k != ""
    ensures var s' := Record(l, s, run, key, cost, loop, today, tok);
            && (RunStopped(s, r) ==> RunStopped(s', r))
            && (TotalStopped(s, k) ==> TotalStopped(s', k))
  {
    hide RunTripCode, KeyTripCode;
  }

  lemma ReleaseHolds(s: State, run: string, key: string, tok: Token, r: string, k: string)
    requires (run != "" || key != "") && r != "" && k != ""
    ensures var s' := Release(s, run, key, tok);
            && (RunStopped(s, r) ==> RunStopped(s', r))
            && (TotalStopped(s, k) ==> TotalStopped(s', k))
  {
  }

  /** A run's pause is lifted by its resume and by no other command, sent by whichever replica, however often. */
  lemma OnlyResumeLiftsRun(l: Limits, s: State, cmd: Command, today: nat, r: string)
    requires r != "" && RunStopped(s, r)
    ensures RunStopped(Exec(l, s, cmd, today), r) <==> cmd != DoResumeRun(r)
  {
    hide Record, Release;
    match cmd {
      case DoRecord(run, key, tok, cost, loop) =>
        if IsSettlement(cmd) {
          RecordHolds(l, s, run, key, cost, loop, today, tok, r, r);
        }
      case DoRelease(run, key, tok) =>
        if IsSettlement(cmd) {
          ReleaseHolds(s, run, key, tok, r, r);
        }
      case _ =>
    }
  }

  /**
    A key's total-cap pause should be an operator's to lift. It stands through every command but its resume
    and one other: the write-back of a daily pause made on the store's day or later, which
    turns it into one that midnight lifts.
   */
  lemma TotalPauseStandsUnlessOverwritten(l: Limits, s: State, cmd: Command, today: nat, key: string)
    requires key != "" && TotalStopped(s, key)
    ensures TotalStopped(Exec(l, s, cmd, today), key) <==> cmd != DoResumeKey(key) && !Overwrites(s, cmd, key)
  {
    hide Record, Release;
    match cmd {
      case DoRecord(run, k, tok, cost, loop) =>
        if IsSettlement(cmd) {
          RecordHolds(l, s, run, k, cost, loop, today, tok, key, key);
        }
      case DoRelease(run, k, tok) =>
        if IsSettlement(cmd) {
          ReleaseHolds(s, run, k, tok, key, key);
        }
      case _ =>
    }
  }

  /** A key paused for a day that is over by `later`. */
  predicate DayIsOver(s: State, key: string, later: nat) {
    var k := KeyHashOf(s, key);
    k.paused && k.dp && k.day.OnDay? && later > k.day.day
  }

  /** Once overwritten, it is a daily pause like any other: gone with the next day. */
  lemma OverwrittenPauseEndsAtMidnight(l: Limits, s: State, cmd: Command, today: nat, key: string, later: nat)
    requires key != "" && Overwrites(s, cmd, key) && later > cmd.onDay
    ensures
      var s' := Exec(l, s, cmd, today);
      && DayIsOver(s', key, later) && !KeyHashOf(RollKey(s', key, later), key).paused
      && KeyHashOf(s', key).lspend == KeyHashOf(s, key).lspend && s'.killed == s.killed
  {
  }

  /** Nothing else stands in the way of a call with this token: no kill switch, no mark, and nothing of its run's. */
  predicate Unhindered(l: Limits, s: State, run: string, key: string, tok: Token) {
    && !s.killed && tok !in TokensAt(s, run, key, tok).admits
    && (run != "" ==> !HashOf(s, run).paused && RunCode(l, HashOf(s, run)) == NoCode)
  }

  /**
    The first call after the day of a daily pause is over is served exactly when the key's settled
    spend is below its total cap, if it has one; and if it is not, the key is paused on that cap (again).
   */
  lemma FirstCallOfTheNextDay(l: Limits, s: State, run: string, key: string, later: nat, tok: Token)
    requires key != "" && DayIsOver(s, key, later) && Unhindered(l, s, run, key, tok)
    ensures
      var (s', a) := Admit(l, s, run, key, Deciding, later, tok);
      && (a.ok <==> !(l.klife > 0 && KeyHashOf(s, key).lspend >= l.klife))
      && (!a.ok ==> TotalStopped(s', key) && a.code == KeyHashOf(s', key).reason == KLife(l.klife))
  {
    var s1 := RollKey(s, key, later);
    var k := KeyHashOf(s1, key);
    NothingReserved(l.floor as real, k.lspend as real, k.lcalls);
    hide RunCode, Reserved;
  }

  lemma NothingReserved(floor: real, spend: real, calls: nat)
    ensures Reserved(floor, spend, calls, 0) == 0.0
  {
  }

  /**
    So a total-cap pause that is written over lets calls through after midnight exactly when it
    did not rest on settled spend: it was made on what calls in flight were reserved at, or was itself
    written back. One that did is made again by the first call that meets it.
   */
  lemma OverwrittenPauseLetsThrough(
    l: Limits, s: State, cmd: Command, today: nat, run: string, key: string, later: nat, tok: Token)
    requires key != "" && TotalStopped(s, key) && Overwrites(s, cmd, key) && later > cmd.onDay
    requires Unhindered(l, Exec(l, s, cmd, today), run, key, tok)
    ensures
      var (s', a) := Admit(l, Exec(l, s, cmd, today), run, key, Deciding, later, tok);
      && (a.ok <==> !(l.klife > 0 && KeyHashOf(s, key).lspend >= l.klife))
      && (!a.ok ==> TotalStopped(s', key) && KeyHashOf(s', key).reason == KLife(l.klife))
  {
    hide Exec, Admit, RollKey, DayIsOver, Overwrites, Unhindered;
    OverwrittenPauseEndsAtMidnight(l, s, cmd, today, key, later);
    FirstCallOfTheNextDay(l, Exec(l, s, cmd, today), run, key, later, tok);
  }

  // What a pause does, and that a write-back makes one.

  /** The script turns a new call of a paused run away with the run's reason, and leaves no trace but its key's day. */
  lemma PausedRunRefuses(l: Limits, s: State, run: string, key: string, today: nat, tok: Token)
    requires run != "" && RunStopped(s, run) && !s.killed && tok !in TokensAt(s, run, key, tok).admits
    ensures Admit(l, s, run, key, Deciding, today, tok)
         == (RollKey(s, key, today), Answer(false, HashOf(s, run).reason, false, false))
  {
    hide RunCode, KeyCode;
  }

  /** A key paused, on the store's day or later ones if it is not for the day. */
  predicate KeyStopped(s: State, key: string, today: nat) {
    var k := KeyHashOf(s, key);
    k.paused && (k.dp ==> k.day.OnDay? && today <= k.day.day)
  }

  /** So it does with a paused key's, unless the run has a pause of its own. */
  lemma PausedKeyRefuses(l: Limits, s: State, run: string, key: string, today: nat, tok: Token)
    requires key != "" && KeyStopped(s, key, today) && !s.killed && tok !in TokensAt(s, run, key, tok).admits
    requires run != "" ==> !RunStopped(s, run)
    ensures Admit(l, s, run, key, Deciding, today, tok)
         == (RollKey(s, key, today), Answer(false, KeyHashOf(s, key).reason, false, false))
  {
    hide RunCode, KeyCode;
  }

  /** A run's pause written back makes the store refuse the run's next call, with the fallback's reason. */
  lemma WrittenRunPauseRefuses(
    l: Limits, s: State, run: string, reason: Control.Reason, wrote: nat, key: string, today: nat, tok: Token)
    requires run != "" && !s.killed && tok !in TokensAt(s, run, key, tok).admits
    ensures
      var s' := Exec(l, s, DoPauseRun(run, reason), wrote);
      Admit(l, s', run, key, Deciding, today, tok) == (RollKey(s', key, today), Answer(false, Text(reason), false, false))
  {
    PausedRunRefuses(l, Exec(l, s, DoPauseRun(run, reason), wrote), run, key, today, tok);
  }

  /**
    A key's pause written back, on a day that is not past in the store, makes the store refuse the
    key's next call with the fallback's reason; one for the day does so exactly until the day is over.
   */
  lemma WrittenKeyPauseRefuses(
    l: Limits, s: State, key: string, reason: Control.Reason, day: bool, onDay: nat, wrote: nat,
    run: string, today: nat, tok: Token)
    requires key != "" && !s.killed && tok !in TokensAt(s, run, key, tok).admits
    requires run != "" ==> !RunStopped(s, run)
    requires day ==> var k := KeyHashOf(s, key); k.day.NoDay? || k.day.day <= onDay
    ensures
      var s' := Exec(l, s, DoPauseKey(key, reason, day, onDay), wrote);
      if !day || today <= onDay then
        Admit(l, s', run, key, Deciding, today, tok) == (RollKey(s', key, today), Answer(false, Text(reason), false, false))
      else Admit(l, s', run, key, Deciding, today, tok).1.code != Text(reason)
  {
    var s' := Exec(l, s, DoPauseKey(key, reason, day, onDay), wrote);
    if !day || today <= onDay {
      PausedKeyRefuses(l, s', run, key, today, tok);
    } else {
      hide Reserve, PauseRun, MarkAdmit;
    }
  }

  /** A daily pause written back for a day that is past in the store changes nothing. */
  lemma PastPauseIsNotWritten(l: Limits, s: State, key: string, reason: Control.Reason, onDay: nat, wrote: nat)
    requires var k := KeyHashOf(s, key); k.day.OnDay? && onDay < k.day.day
    ensures Exec(l, s, DoPauseKey(key, reason, true, onDay), wrote) == s
  {
  }

  // Over any scripts.

  /** A run's pause in the store stands until its own resume is carried out, whatever else any replica sends. */
  lemma {:induction false} RunPauseStands(l: Limits, s: State, xs: seq<Script>, r: string)
    requires r != "" && RunStopped(s, r)
    requires forall x <- xs :: !(x.Does? && x.cmd == DoResumeRun(r))
    ensures RunStopped(RanAll(l, s, xs), r)
    decreases |xs|
  {
    hide Admit, Exec, RunStopped;
    if xs != [] {
      match xs[0] {
        case Asks(run, key, mode, tok, today) =>
          if run != "" || key != "" {
            AdmissionHolds(l, s, run, key, mode, today, tok, r, r);
          }
        case Does(cmd, today) => OnlyResumeLiftsRun(l, s, cmd, today, r);
        case Kills(on) => KillLiftsNothing(s, on, r, r);
      }
      RunPauseStands(l, Ran(l, s, xs[0]), xs[1..], r);
    }
  }

  lemma KillLiftsNothing(s: State, on: bool, r: string, k: string)
    ensures RunStopped(SetKilled(s, on), r) == RunStopped(s, r) && TotalStopped(SetKilled(s, on), k) == TotalStopped(s, k)
  {
  }

  /** None of the scripts is the key's resume, or writes over its pause where it then stands. */
  predicate LeftAlone(l: Limits, s: State, xs: seq<Script>, key: string)
    decreases |xs|
  {
    xs == [] ||
    (var x := xs[0];
     && (x.Does? ==> x.cmd != DoResumeKey(key) && !Overwrites(s, x.cmd, key))
     && LeftAlone(l, Ran(l, s, x), xs[1..], key))
  }

  /** So does a key's total-cap pause, until its resume or such a write-back. */
  lemma {:induction false} TotalPauseStands(l: Limits, s: State, xs: seq<Script>, key: string)
    requires key != "" && TotalStopped(s, key) && LeftAlone(l, s, xs, key)
    ensures TotalStopped(RanAll(l, s, xs), key)
    decreases |xs|
  {
    hide Admit, Exec, TotalStopped, Overwrites;
    if xs != [] {
      match xs[0] {
        case Asks(run, k, mode, tok, today) =>
          if run != "" || k != "" {
            AdmissionHolds(l, s, run, k, mode, today, tok, key, key);
          }
        case Does(cmd, today) => TotalPauseStandsUnlessOverwritten(l, s, cmd, today, key);
        case Kills(on) => KillLiftsNothing(s, on, key, key);
      }
      TotalPauseStands(l, Ran(l, s, xs[0]), xs[1..], key);
    }
  }
}

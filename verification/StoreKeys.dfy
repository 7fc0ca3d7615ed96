/**
  A key's history in the store, through any scripts at all, kept beside the tallies that resumes
  and midnights wipe; and what its total cap makes of it, for all replicas at once.
 */
module StoreKeys {
  import opened Money
  import opened Histories
  import opened Nets
  import opened Store
  import Control
  import Costs

  /** Reservations a key's record loses if a script looks at its day now. */
  function LostOnRoll(s: State, k: string, today: nat): nat {
    var h := KeyHashOf(s, k);
    if h.day.OnDay? && today <= h.day.day then 0 else h.inflight
  }

  function RolledOver(s: State, k: string, today: nat, b: Ledger): Ledger {
    b.(wiped := b.wiped + LostOnRoll(s, k, today))
  }

  /** What one script adds to the history of key k. A script sent again adds nothing. */
  function Told(l: Limits, s: State, x: Script, k: string, b: Ledger): Ledger
    requires k != ""
  {
    match x
    case Asks(run, key, mode, tok, today) =>
      if key != k || s.killed || tok in TokensAt(s, run, key, tok).admits then b
      else
        var rolled := RolledOver(s, k, today, b);
        if !Admit(l, s, run, key, mode, today, tok).1.ok then rolled
        else rolled.(admitted := b.admitted + 1, bypassed := b.bypassed + if mode == Bypassing then 1 else 0)
    case Does(DoRecord(run, key, tok, cost, _), today) =>
      if key != k || IsSettled(s, run, key, tok) then b
      else RolledOver(s, k, today, b).(recorded := b.recorded + 1, spent := b.spent + cost as real)
    case Does(DoRelease(run, key, tok), _) =>
      if key != k || IsSettled(s, run, key, tok) then b else b.(released := b.released + 1)
    case Does(DoResumeKey(key), _) =>
      var h := KeyHashOf(s, k);
      if key != k || !h.paused then b
      else if h.dp then b.(wiped := b.wiped + h.inflight)
      else b.(clearances := b.clearances + 1)
    case Does(DoPauseKey(key, _, day, onDay), _) =>
      var h := KeyHashOf(s, k);
      if key == k && day && (h.day.NoDay? || onDay > h.day.day) then b.(wiped := b.wiped + h.inflight) else b
    case _ => b
  }

  function ToldAll(l: Limits, s: State, xs: seq<Script>, k: string, b: Ledger): Ledger
    requires k != ""
    decreases |xs|
  {
    if xs == [] then b else ToldAll(l, Ran(l, s, xs[0]), xs[1..], k, Told(l, s, xs[0], k, b))
  }

  // What a script does to a key's total tallies.

  datatype Totals = Totals(calls: nat, spend: int, inflight: nat)

  function TotalsOf(s: State, k: string): Totals {
    var h := KeyHashOf(s, k);
    Totals(h.lcalls, h.lspend, h.inflight)
  }

  function RolledTotals(s: State, k: string, today: nat): Totals {
    var t := TotalsOf(s, k);
    t.(inflight := t.inflight - LostOnRoll(s, k, today))
  }

  lemma RollTotals(s: State, key: string, today: nat, k: string)
    requires k != ""
    ensures TotalsOf(RollKey(s, key, today), k) == if key == k then RolledTotals(s, k, today) else TotalsOf(s, k)
  {
  }

  lemma ReserveTotals(s: State, run: string, key: string, tok: Token, forced: bool, k: string)
    requires k != ""
    ensures
      var t := TotalsOf(s, k);
      TotalsOf(Reserve(s, run, key, tok, forced), k) == if key == k then t.(inflight := t.inflight + 1) else t
  {
  }

  /** Pauses, and the marks of refusals, change no total. */
  lemma StopTotals(s: State, run: string, key: string, tok: Token, code: Code, k: string)
    ensures TotalsOf(PauseRun(s, run, code), k) == TotalsOf(s, k) && TotalsOf(PauseKey(s, key, code), k) == TotalsOf(s, k)
    ensures TotalsOf(MarkAdmit(s, run, key, tok, Refused(code)), k) == TotalsOf(s, k)
  {
  }

  lemma FreeMeans(l: Limits, s: State, run: string, key: string, mode: Mode)
    ensures VerdictOf(l, s, run, key, mode).Free? && key != "" && mode == Deciding ==> KeyCode(l, KeyHashOf(s, key)) == NoCode
  {
  }

  /** An admission reserves one call of its key if it serves it, with the key below its ceilings unless forced. */
  lemma AskTotals(l: Limits, s: State, run: string, key: string, mode: Mode, today: nat, tok: Token, k: string)
    requires k != "" && (run != "" || key != "")
    requires tok !in TokensAt(s, run, key, tok).admits && !s.killed
    ensures
      var (s', a) := Admit(l, s, run, key, mode, today, tok);
      var t := if key == k then RolledTotals(s, k, today) else TotalsOf(s, k);
      && TotalsOf(s', k) == (if a.ok && key == k then t.(inflight := t.inflight + 1) else t)
      && (a.ok && key == k && mode == Deciding ==> KeyCode(l, KeyHashOf(RollKey(s, k, today), k)) == NoCode)
  {
    hide Reserve, PauseRun, PauseKey, MarkAdmit, RollKey, VerdictOf, TotalsOf, RolledTotals, KeyCode;
    var s1 := RollKey(s, key, today);
    var v := VerdictOf(l, s1, run, key, mode);
    var code := if v.StopsKey? || v.StopsRun? then v.code else NoCode;
    var s2 := if v.StopsKey? then PauseKey(s1, key, code) else if v.StopsRun? then PauseRun(s1, run, code) else s1;
    RollTotals(s, key, today, k);
    StopTotals(s1, run, key, tok, code, k);
    StopTotals(s2, run, key, tok, code, k);
    ReserveTotals(s2, run, key, tok, mode == Bypassing, k);
    FreeMeans(l, s1, run, key, mode);
  }

  lemma RecordTotals(l: Limits, s: State, run: string, key: string, cost: int, loop: bool, today: nat, tok: Token, k: string)
    requires k != "" && (run != "" || key != "") && !IsSettled(s, run, key, tok)
    ensures
      var t := RolledTotals(s, k, today);
      TotalsOf(Record(l, s, run, key, cost, loop, today, tok), k)
      == if key == k then Totals(t.calls + 1, t.spend + cost, Control.Dec(t.inflight)) else TotalsOf(s, k)
  {
    hide ChargeRun, KeyTripCode;
  }

  lemma ReleaseTotals(s: State, run: string, key: string, tok: Token, k: string)
    requires k != "" && (run != "" || key != "") && !IsSettled(s, run, key, tok)
    ensures
      var t := TotalsOf(s, k);
      TotalsOf(Release(s, run, key, tok), k) == if key == k then t.(inflight := Control.Dec(t.inflight)) else t
  {
  }

  lemma OtherTotals(l: Limits, s: State, cmd: Command, today: nat, k: string)
    requires !cmd.DoRecord? && !cmd.DoRelease?
    ensures
      var t, t', h := TotalsOf(s, k), TotalsOf(Exec(l, s, cmd, today), k), KeyHashOf(s, k);
      match cmd
      case DoResumeKey(key) =>
        t' == if key != k || !h.paused then t else if h.dp then t.(inflight := 0) else Totals(0, 0, 0)
      case DoPauseKey(key, _, day, onDay) =>
        t' == if key == k && day && (h.day.NoDay? || onDay > h.day.day) then t.(inflight := 0) else t
      case _ => t' == t
  {
  }

  // The total cap.

  /** A total cap of at least a micro-dollar, a floor in whole ones, and no shadow mode. */
  predicate TotalPolicy(p: Control.Policy) {
    p.maxKey > 0.0 && Micro(p.maxKey) > 0 && p.floor >= 0.0 && Whole(p.floor) && !p.shadow
  }

  /** A script of this policy, that records no more than the floor. */
  predicate Sound(p: Control.Policy, x: Script) {
    match x
    case Asks(_, _, mode, _, _) => mode != Shadowing
    case Does(cmd, _) => Costs.Affordable(p, cmd)
    case Kills(_) => true
  }

  ghost predicate KeyNet(p: Control.Policy, t: Totals, b: Ledger) {
    TotalNet(p.floor, Rounded(p.maxKey), b, t.calls, t.spend as real, t.inflight)
  }

  lemma UnderTotal(p: Control.Policy, h: KeyHash)
    requires TotalPolicy(p) && KeyCode(LimitsOf(p), h) == NoCode && 0.0 <= h.lspend as real <= Copies(h.lcalls, p.floor)
    ensures Showing(p.floor, h.lspend as real, h.inflight) < Rounded(p.maxKey)
  {
    FloorIsReserved(p.floor, h.lspend as real, h.lcalls, h.inflight);
    hide Reserved, Micro;
  }

  lemma FloorAndCap(p: Control.Policy)
    requires TotalPolicy(p)
    ensures p.floor >= 0.0 && Rounded(p.maxKey) > 0.0
  {
  }

  lemma RollNet(p: Control.Policy, s: State, k: string, today: nat, b: Ledger)
    requires TotalPolicy(p) && KeyNet(p, TotalsOf(s, k), b)
    ensures KeyNet(p, RolledTotals(s, k, today), RolledOver(s, k, today, b))
  {
    hide TotalNet;
    var t := TotalsOf(s, k);
    FloorAndCap(p);
    TotalWiped(p.floor, Rounded(p.maxKey), b, t.calls, t.spend as real, t.inflight, LostOnRoll(s, k, today));
  }

  lemma AskNet(p: Control.Policy, s: State, x: Script, k: string, b: Ledger)
    requires k != "" && TotalPolicy(p) && x.Asks? && Sound(p, x) && KeyNet(p, TotalsOf(s, k), b)
    ensures KeyNet(p, TotalsOf(Ran(LimitsOf(p), s, x), k), Told(LimitsOf(p), s, x, k, b))
  {
    hide TotalNet, KeyCode, TotalPolicy, Carry, VerdictOf;
    var l := LimitsOf(p);
    if (x.run != "" || x.key != "") && x.tok !in TokensAt(s, x.run, x.key, x.tok).admits && !s.killed {
      AskTotals(l, s, x.run, x.key, x.mode, x.today, x.tok, k);
      if x.key == k {
        var t, b1 := RolledTotals(s, k, x.today), RolledOver(s, k, x.today, b);
        RollNet(p, s, k, x.today, b);
        FloorAndCap(p);
        TotalAdmitted(p.floor, Rounded(p.maxKey), b1, t.calls, t.spend as real, t.inflight);
        if Admit(l, s, x.run, x.key, x.mode, x.today, x.tok).1.ok && x.mode == Deciding {
          RollTotals(s, k, x.today, k);
          NotNegative(p, t, b1);
          UnderTotal(p, KeyHashOf(RollKey(s, k, x.today), k));
        }
      }
    }
  }

  lemma NotNegative(p: Control.Policy, t: Totals, b: Ledger)
    requires KeyNet(p, t, b)
    ensures 0.0 <= t.spend as real <= Copies(t.calls, p.floor)
  {
  }

  lemma SettleNet(p: Control.Policy, s: State, cmd: Command, today: nat, k: string, b: Ledger)
    requires k != "" && TotalPolicy(p) && Costs.Affordable(p, cmd) && IsSettlement(cmd) && KeyNet(p, TotalsOf(s, k), b)
    ensures KeyNet(p, TotalsOf(Exec(LimitsOf(p), s, cmd, today), k), Told(LimitsOf(p), s, Does(cmd, today), k, b))
  {
    hide TotalNet, TotalPolicy, Record, Release, TotalsOf, RolledTotals, IsSettled;
    var l := LimitsOf(p);
    if IsSettled(s, cmd.run, cmd.key, cmd.tok) {
      assert Exec(l, s, cmd, today) == s by { SettledAlready(l, s, cmd, today); }
    } else {
      var t, t1, b1 := TotalsOf(s, k), RolledTotals(s, k, today), RolledOver(s, k, today, b);
      FloorAndCap(p);
      RollNet(p, s, k, today, b);
      match cmd {
        case DoRecord(run, key, tok, cost, loop) =>
          RecordTotals(l, s, run, key, cost, loop, today, tok, k);
          TotalSettled(p.floor, Rounded(p.maxKey), b1, t1.calls, t1.spend as real, t1.inflight, cost as real);
        case DoRelease(run, key, tok) =>
          ReleaseTotals(s, run, key, tok, k);
          TotalSettled(p.floor, Rounded(p.maxKey), b, t.calls, t.spend as real, t.inflight, 0.0);
      }
    }
  }

  lemma SettledAlready(l: Limits, s: State, cmd: Command, today: nat)
    requires IsSettlement(cmd) && IsSettled(s, cmd.run, cmd.key, cmd.tok)
    ensures Exec(l, s, cmd, today) == s
  {
  }

  lemma DoNet(p: Control.Policy, s: State, cmd: Command, today: nat, k: string, b: Ledger)
    requires k != "" && TotalPolicy(p) && Costs.Affordable(p, cmd) && KeyNet(p, TotalsOf(s, k), b)
    ensures KeyNet(p, TotalsOf(Exec(LimitsOf(p), s, cmd, today), k), Told(LimitsOf(p), s, Does(cmd, today), k, b))
  {
    hide TotalNet, TotalPolicy, Record, Release;
    var l, t := LimitsOf(p), TotalsOf(s, k);
    FloorAndCap(p);
    if IsSettlement(cmd) {
      SettleNet(p, s, cmd, today, k, b);
    } else if !cmd.DoRecord? && !cmd.DoRelease? {
      OtherTotals(l, s, cmd, today, k);
      TotalWiped(p.floor, Rounded(p.maxKey), b, t.calls, t.spend as real, t.inflight, t.inflight);
      TotalCleared(p.floor, Rounded(p.maxKey), b, t.calls, t.spend as real, t.inflight);
    }
  }

  lemma RanNet(p: Control.Policy, s: State, x: Script, k: string, b: Ledger)
    requires k != "" && TotalPolicy(p) && Sound(p, x) && KeyNet(p, TotalsOf(s, k), b)
    ensures KeyNet(p, TotalsOf(Ran(LimitsOf(p), s, x), k), Told(LimitsOf(p), s, x, k, b))
  {
    hide KeyNet, TotalPolicy, Admit, Exec, Costs.Affordable;
    match x {
      case Asks(_, _, _, _, _) => AskNet(p, s, x, k, b);
      case Does(cmd, today) => DoNet(p, s, cmd, today, k, b);
      case Kills(_) =>
    }
  }

  lemma {:induction false} RanAllNet(p: Control.Policy, s: State, xs: seq<Script>, k: string, b: Ledger)
    requires k != "" && TotalPolicy(p) && (forall x <- xs :: Sound(p, x)) && KeyNet(p, TotalsOf(s, k), b)
    ensures KeyNet(p, TotalsOf(RanAll(LimitsOf(p), s, xs), k), ToldAll(LimitsOf(p), s, xs, k, b))
    decreases |xs|
  {
    hide KeyNet, TotalPolicy, Sound, Ran, Told, TotalsOf;
    if xs != [] {
      assert Sound(p, xs[0]);
      RanNet(p, s, xs[0], k, b);
      RanAllNet(p, Ran(LimitsOf(p), s, xs[0]), xs[1..], k, Told(LimitsOf(p), s, xs[0], k, b));
    }
  }

  /**
    Through any scripts of any replicas that record no more than the floor a call: what the store
    has recorded for a key, with a floor for each call it serves and has not been told ended, stays
    below one total cap and one floor, the same again for each total-cap resume, and a floor for each
    call forced through and each reservation that midnight, a daily pause or its resume wiped.
   */
  lemma {:induction false} StoreKeyBound(p: Control.Policy, xs: seq<Script>, k: string)
    requires k != "" && TotalPolicy(p) && forall x <- xs :: Sound(p, x)
    ensures Bounded(p.floor, Rounded(p.maxKey), ToldAll(LimitsOf(p), EMPTY_STORE, xs, k, NEW_LEDGER), 1)
  {
    FloorAndCap(p);
    TotalFresh(p.floor, Rounded(p.maxKey));
    hide TotalNet, Bounded, TotalPolicy, Sound, RanAll, ToldAll;
    RanAllNet(p, EMPTY_STORE, xs, k, NEW_LEDGER);
    var t := TotalsOf(RanAll(LimitsOf(p), EMPTY_STORE, xs), k);
    TotalBounded(p.floor, Rounded(p.maxKey), ToldAll(LimitsOf(p), EMPTY_STORE, xs, k, NEW_LEDGER),
                 t.calls, t.spend as real, t.inflight);
  }

  // The total is what was recorded.

  /** Until the key's total is first cleared, it is what was recorded for the key, each settlement once. */
  predicate TotalTrue(s: State, k: string, b: Ledger) {
    var t := TotalsOf(s, k);
    b.clearances == 0 ==> t.calls == b.recorded && t.spend as real == b.spent
  }

  lemma RanTrue(l: Limits, s: State, x: Script, k: string, b: Ledger)
    requires k != "" && TotalTrue(s, k, b)
    ensures TotalTrue(Ran(l, s, x), k, Told(l, s, x, k, b))
  {
    hide Record, Release, Carry, KeyCode, VerdictOf;
    match x {
      case Asks(run, key, mode, tok, today) =>
        if (run != "" || key != "") && tok !in TokensAt(s, run, key, tok).admits && !s.killed {
          AskTotals(l, s, run, key, mode, today, tok, k);
        }
      case Does(cmd, today) =>
        if IsSettlement(cmd) && IsSettled(s, cmd.run, cmd.key, cmd.tok) {
          SettledAlready(l, s, cmd, today);
        } else if IsSettlement(cmd) && cmd.DoRecord? {
          RecordTotals(l, s, cmd.run, cmd.key, cmd.cost, cmd.loop, today, cmd.tok, k);
        } else if IsSettlement(cmd) {
          ReleaseTotals(s, cmd.run, cmd.key, cmd.tok, k);
        } else if !cmd.DoRecord? && !cmd.DoRelease? {
          OtherTotals(l, s, cmd, today, k);
        }
      case Kills(_) =>
    }
  }

  lemma {:induction false} TotalIsRecorded(l: Limits, s: State, xs: seq<Script>, k: string, b: Ledger)
    requires k != "" && TotalTrue(s, k, b)
    ensures TotalTrue(RanAll(l, s, xs), k, ToldAll(l, s, xs, k, b))
    decreases |xs|
  {
    hide TotalTrue, Ran, Told;
    if xs != [] {
      RanTrue(l, s, xs[0], k, b);
      TotalIsRecorded(l, Ran(l, s, xs[0]), xs[1..], k, Told(l, s, xs[0], k, b));
    }
  }
}

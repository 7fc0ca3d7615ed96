/**
  The store's scripts refine the in-memory controller: given the same calls with fresh tokens,
  one clock and no eviction or expiry, both give the same answers and keep the same tallies, as
  long as amounts are whole micro-dollars and no call costs more than the reserved floor.
 */
module Refinement {
  import opened Money
  import opened Control
  import Store
  import opened Histories
  import RunBounds
  import KeyBounds

  /** The sentence a stored code stands for. */
  function ReasonOf(code: Store.Code, key: string): Reason {
    match code
    case NoCode => NoReason
    case Calls(max) => CallCap(max)
    case Spend(cap) => SpendCap(cap as real)
    case Loop => SuspectedLoop
    case KLife(cap) => KeyCap(key, cap as real)
    case KDay(cap) => KeyDayCap(key, cap as real)
    case Text(reason) => reason
  }

  // Ceilings: where the two compare, one rounds and the other does not.

  /** A run's tallies agree: same counts, same dollars, same cap, same pause. */
  ghost predicate RunAgrees(st: RunState, h: Store.RunHash) {
    && st.calls == h.calls && st.inflight == h.inflight
    && st.spend == h.spend as real && st.cap == h.cap as real
    && st.paused == h.paused && st.reason == ReasonOf(h.reason, "") && !h.reason.KLife? && !h.reason.KDay?
  }

  ghost predicate KeyAgrees(key: string, ks: KeyState, k: Store.KeyHash) {
    && k.day == Store.OnDay(ks.day)
    && ks.dayCalls == k.dcalls && ks.daySpend == k.dspend as real
    && ks.lifeCalls == k.lcalls && ks.lifeSpend == k.lspend as real
    && ks.inflight == k.inflight
    && ks.paused == k.paused && ks.reason == ReasonOf(k.reason, key) && ks.dayPause == k.dp
  }

  predicate WholePolicy(p: Policy) {
    Whole(p.maxSpend) && Whole(p.floor) && Whole(p.maxKey) && Whole(p.maxKeyDay) && p.floor >= 0.0
  }

  /** A figure within half a micro-dollar below the cap: rounding meets the cap, exact comparison does not. */
  predicate InTheGap(x: real, cap: int) {
    cap as real - 0.5 <= x < cap as real
  }

  lemma RoundingGap(x: real, cap: int)
    requires cap > 0
    ensures Micro(x) >= cap <==> x >= cap as real || InTheGap(x, cap)
  {
  }

  /** The figure a run's spend cap is compared with. */
  function RunFigure(p: Policy, st: RunState): real {
    Projected(p.floor, st.spend, st.calls, st.inflight)
  }

  /**
    From agreeing tallies, the two part at a run's ceilings exactly when the call cap is not met
    and the projected spend lies within half a micro-dollar below the spend cap: the controller
    then stops the run and the script does not.
   */
  lemma RunLimitsPartOnlyInTheGap(p: Policy, st: RunState, h: Store.RunHash)
    requires WholePolicy(p) && RunAgrees(st, h)
    ensures
      var l := Store.LimitsOf(p);
      RunLimit(p, st) != ReasonOf(Store.RunCode(l, h), "")
      <==> !(p.maxCalls > 0 && st.calls + st.inflight >= p.maxCalls)
           && Store.CapOf(l, h) > 0 && InTheGap(RunFigure(p, st), Store.CapOf(l, h))
    ensures RunLimit(p, st) != ReasonOf(Store.RunCode(Store.LimitsOf(p), h), "")
            ==> RunLimit(p, st).SpendCap? && Store.RunCode(Store.LimitsOf(p), h) == Store.NoCode
  {
    hide Projected, Micro;
    var cap := Store.CapOf(Store.LimitsOf(p), h);
    CapsAgree(p, st, h);
    if cap > 0 {
      RoundingGap(RunFigure(p, st), cap);
    }
  }

  /** Calls of one micro-dollar and of none, one more in flight at their average, a cap of two: rounding makes the difference. */
  lemma TheGapIsReal()
    ensures
      var p := Policy(0, 2.0, 0.0, false, 0.0, 0.0, false, 1);
      var st := RunState(2, 1, 1.0, 0.0, false, NoReason, 0);
      var h := Store.RunHash(2, 1, 1, 0, false, Store.NoCode, Store.NO_TOKENS);
      && WholePolicy(p) && RunAgrees(st, h)
      && RunLimit(p, st) == SpendCap(2.0) && Store.RunCode(Store.LimitsOf(p), h) == Store.NoCode
  {
    assert Micro(1.5) == 2;
  }

  lemma CapsAgree(p: Policy, st: RunState, h: Store.RunHash)
    requires WholePolicy(p) && RunAgrees(st, h)
    ensures SpendCapOf(p, st) == Store.CapOf(Store.LimitsOf(p), h) as real
    ensures Micro(SpendCapOf(p, st)) == Store.CapOf(Store.LimitsOf(p), h)
    ensures Store.LimitsOf(p).floor as real == p.floor
  {
  }

  /** The figures a key's total and daily caps are compared with. */
  function TotalFigure(p: Policy, ks: KeyState): real {
    Projected(p.floor, ks.lifeSpend, ks.lifeCalls, ks.inflight)
  }

  function DayFigure(p: Policy, ks: KeyState): real {
    ks.daySpend + Reserved(p.floor, ks.lifeSpend, ks.lifeCalls, ks.inflight)
  }

  /** For a key the two part exactly at a gap below the total cap or, that cap not being met, below the daily one. */
  lemma KeyLimitsPartOnlyInTheGap(p: Policy, key: string, ks: KeyState, k: Store.KeyHash)
    requires WholePolicy(p) && KeyAgrees(key, ks, k)
    ensures
      var l := Store.LimitsOf(p);
      KeyLimit(p, key, ks) != ReasonOf(Store.KeyCode(l, k), key)
      <==> || (l.klife > 0 && InTheGap(TotalFigure(p, ks), l.klife))
           || (!(l.klife > 0 && TotalFigure(p, ks) >= l.klife as real) && l.kday > 0 && InTheGap(DayFigure(p, ks), l.kday))
  {
    hide Reserved, Micro;
    var l := Store.LimitsOf(p);
    KeyCapsAgree(p);
    if l.klife > 0 {
      RoundingGap(TotalFigure(p, ks), l.klife);
    }
    if l.kday > 0 {
      RoundingGap(DayFigure(p, ks), l.kday);
    }
  }

  lemma KeyCapsAgree(p: Policy)
    requires WholePolicy(p)
    ensures
      var l := Store.LimitsOf(p);
      l.klife as real == p.maxKey && l.kday as real == p.maxKeyDay && l.floor as real == p.floor
      && Micro(p.maxKey) == l.klife && Micro(p.maxKeyDay) == l.kday
  {
  }

  // While no call cost more than the floor, figures are whole and the gap is empty.

  ghost predicate RunWithinFloor(p: Policy, st: RunState) {
    0.0 <= st.spend <= Copies(st.calls, p.floor)
  }

  ghost predicate KeyWithinFloor(p: Policy, t: (nat, nat, real)) {
    0.0 <= t.2 <= Copies(t.0, p.floor)
  }

  lemma {:induction false} CopiesWhole(n: nat, v: real)
    requires Whole(v)
    ensures Whole(Copies(n, v))
  {
    if n > 0 {
      CopiesWhole(n - 1, v);
      WholeSum(Copies(n - 1, v), v);
    }
  }

  lemma WholeIsNotInTheGap(m: int, cap: int)
    ensures !InTheGap(m as real, cap)
  {
  }

  lemma RunLimitsAgree(p: Policy, st: RunState, h: Store.RunHash)
    requires WholePolicy(p) && RunAgrees(st, h) && RunWithinFloor(p, st)
    ensures RunLimit(p, st) == ReasonOf(Store.RunCode(Store.LimitsOf(p), h), "")
  {
    hide RunLimit, Store.RunCode, Projected;
    RunLimitsPartOnlyInTheGap(p, st, h);
    FloorIsReserved(p.floor, st.spend, st.calls, st.inflight);
    CopiesWhole(st.inflight, p.floor);
    var m := Micro(Copies(st.inflight, p.floor));
    WholeIsNotInTheGap(h.spend + m, Store.CapOf(Store.LimitsOf(p), h));
  }

  lemma KeyLimitsAgree(p: Policy, key: string, ks: KeyState, k: Store.KeyHash)
    requires WholePolicy(p) && KeyAgrees(key, ks, k) && KeyWithinFloor(p, KeyBounds.Totals(ks))
    ensures KeyLimit(p, key, ks) == ReasonOf(Store.KeyCode(Store.LimitsOf(p), k), key)
  {
    hide KeyLimit, Store.KeyCode, Reserved;
    KeyLimitsPartOnlyInTheGap(p, key, ks, k);
    FloorIsReserved(p.floor, ks.lifeSpend, ks.lifeCalls, ks.inflight);
    CopiesWhole(ks.inflight, p.floor);
    var m := Micro(Copies(ks.inflight, p.floor));
    WholeIsNotInTheGap(k.lspend + m, Store.LimitsOf(p).klife);
    WholeIsNotInTheGap(k.dspend + m, Store.LimitsOf(p).kday);
  }

  // The two counters side by side.

  /** The tallies of every run and key agree; a key is tracked by one just when it is by the other. */
  ghost predicate Agree(c: Ctl, s: Store.State) {
    && c.killed == s.killed
    && (forall r :: r != "" ==> RunAgrees(RunOf(c, r), Store.HashOf(s, r)))
    && (forall k :: k != "" ==> KeyStands(c, s, k))
  }

  ghost predicate KeyStands(c: Ctl, s: Store.State, k: string) {
    if k in c.keys then KeyAgrees(k, c.keys[k], Store.KeyHashOf(s, k)) else Store.KeyHashOf(s, k) == Store.NO_KEY
  }

  /** No tally shows a call dearer than the floor. */
  ghost predicate CheapSoFar(p: Policy, c: Ctl) {
    && (forall r :: r != "" ==> RunWithinFloor(p, RunOf(c, r)))
    && (forall k :: k != "" ==> KeyWithinFloor(p, KeyBounds.TotalsOf(c, k)))
  }

  /** The answer of the admission script, as the gateway reads it. */
  function ReplyOf(a: Store.Answer, key: string): Reply {
    if a.killed then Reply(false, KillSwitch) else Reply(a.ok, ReasonOf(a.code, key))
  }

  /** One operation sent to the store: a call with neither run nor key only asks for the kill switch. */
  function Sent(p: Policy, s: Store.State, op: Op, now: nat, tok: Store.Token): (Store.State, Reply) {
    var l, yes := Store.LimitsOf(p), Reply(true, NoReason);
    match op
    case Admit(run, key, bypass) =>
      if run == "" && key == "" then (s, if s.killed then Reply(false, KillSwitch) else yes)
      else
        var (s', a) := Store.Admit(l, s, run, key, Store.ModeOf(p, bypass), DayOf(now), tok);
        (s', ReplyOf(a, key))
    case Record(run, key, cost, loop) =>
      (if run == "" && key == "" then s else Store.Record(l, s, run, key, Micro(cost), loop, DayOf(now), tok), yes)
    case Release(run, key) => (if run == "" && key == "" then s else Store.Release(s, run, key, tok), yes)
    case ResumeRun(run) => (Store.ResumeRun(s, run), Reply(Store.HashOf(s, run).paused, NoReason))
    case ResumeKey(key) => (Store.ResumeKey(s, key), Reply(Store.KeyHashOf(s, key).paused, NoReason))
    case SetRunCap(run, cap) => (if run == "" || cap <= 0.0 then s else Store.SetCap(s, run, Micro(cap)), yes)
    case SetKilled(on) => (Store.SetKilled(s, on), yes)
    case NoteRun(_) => (s, yes)
    case NoteKey(_) => (s, yes)
  }

  /** The token has not been used for this before. */
  predicate FreshFor(s: Store.State, op: Op, tok: Store.Token) {
    match op
    case Admit(run, key, _) => tok !in Store.TokensAt(s, run, key, tok).admits
    case Record(run, key, _, _) => tok !in Store.TokensAt(s, run, key, tok).settled
    case Release(run, key) => tok !in Store.TokensAt(s, run, key, tok).settled
    case _ => true
  }

  /** Operations of the refinement: whole amounts within the floor, named runs and keys, no notes. */
  predicate Plain(p: Policy, op: Op) {
    && WithinFloor(p, op)
    && (op.Record? ==> Whole(op.cost))
    && (op.SetRunCap? ==> Whole(op.cap))
    && (op.ResumeRun? ==> op.run != "") && (op.ResumeKey? ==> op.key != "")
    && !op.NoteRun? && !op.NoteKey?
  }

  // Each half-step keeps the agreement.

  lemma PutRunAgrees(c: Ctl, s: Store.State, run: string, st: RunState, h: Store.RunHash)
    requires Agree(c, s) && run != "" && RunAgrees(st, h)
    ensures Agree(SetRun(c, run, st), Store.PutRun(s, run, h))
  {
    forall r | r != "" ensures RunAgrees(RunOf(SetRun(c, run, st), r), Store.HashOf(Store.PutRun(s, run, h), r)) {
      assert RunAgrees(RunOf(c, r), Store.HashOf(s, r));
    }
    forall k | k != "" ensures KeyStands(SetRun(c, run, st), Store.PutRun(s, run, h), k) {
      assert KeyStands(c, s, k);
    }
  }

  lemma PutKeyAgrees(c: Ctl, s: Store.State, key: string, ks: KeyState, k: Store.KeyHash)
    requires Agree(c, s) && key != "" && KeyAgrees(key, ks, k)
    ensures Agree(SetKey(c, key, ks), Store.PutKey(s, key, k))
  {
    var c', s' := SetKey(c, key, ks), Store.PutKey(s, key, k);
    forall j | j != "" ensures KeyStands(c', s', j) {
      assert KeyStands(c, s, j);
    }
    forall r | r != "" ensures RunAgrees(RunOf(c', r), Store.HashOf(s', r)) {
      assert RunAgrees(RunOf(c, r), Store.HashOf(s, r));
    }
  }

  /** Tokens, stop events and the store's own history are no part of the tallies. */
  lemma BookkeepingAgrees(c: Ctl, c': Ctl, s: Store.State, s': Store.State)
    requires Agree(c, s)
    requires c'.killed == c.killed && c'.runs == c.runs && c'.keys == c.keys
    requires s'.killed == s.killed && s'.keys == s.keys
    requires forall r :: r != "" ==> Store.HashOf(s', r).(tokens := Store.HashOf(s, r).tokens) == Store.HashOf(s, r)
    ensures Agree(c', s')
  {
    forall k | k != "" ensures KeyStands(c', s', k) {
      assert KeyStands(c, s, k);
    }
    forall r | r != "" ensures RunAgrees(RunOf(c', r), Store.HashOf(s', r)) {
      assert RunAgrees(RunOf(c, r), Store.HashOf(s, r));
    }
  }

  lemma TouchAgrees(c: Ctl, s: Store.State, run: string, key: string, now: nat)
    requires Agree(c, s)
    ensures Agree(Touch(c, run, key, now), Store.RollKey(s, key, DayOf(now)))
  {
    hide Agree;
    var c1, s1 := if key == "" then c else SetKey(c, key, KeyAt(c, key, now)), Store.RollKey(s, key, DayOf(now));
    if key != "" {
      RollAgrees(c, s, key, now);
      PutKeyAgrees(c, s, key, KeyAt(c, key, now), Store.RollHash(Store.KeyHashOf(s, key), DayOf(now)));
    }
    if run != "" {
      TakeRun(c1, s1, run);
      var h := Store.HashOf(s1, run);
      PutRunAgrees(c1, s1, run, RunOf(c1, run).(lastSeen := now), h);
      PutSame(Touch(c, run, key, now), s1, run);
    }
  }

  lemma TakeRun(c: Ctl, s: Store.State, run: string)
    requires Agree(c, s) && run != ""
    ensures RunAgrees(RunOf(c, run), Store.HashOf(s, run))
  {
  }

  /** Writing back a run's record as it is changes no tally. */
  lemma PutSame(c: Ctl, s: Store.State, run: string)
    requires Agree(c, Store.PutRun(s, run, Store.HashOf(s, run)))
    ensures Agree(c, s)
  {
    BookkeepingAgrees(c, c, Store.PutRun(s, run, Store.HashOf(s, run)), s);
  }

  lemma RollAgrees(c: Ctl, s: Store.State, key: string, now: nat)
    requires Agree(c, s) && key != ""
    ensures KeyAgrees(key, KeyAt(c, key, now), Store.RollHash(Store.KeyHashOf(s, key), DayOf(now)))
  {
    assert KeyStands(c, s, key);
  }

  lemma ReserveAgrees(c: Ctl, s: Store.State, run: string, key: string, tok: Store.Token, forced: bool)
    requires Agree(c, s) && (key != "" ==> key in c.keys)
    ensures Agree(Reserve(c, run, key), Store.Reserve(s, run, key, tok, forced))
  {
    hide Agree, Store.MarkAdmit;
    var c1 := if run == "" then c else SetRun(c, run, RunOf(c, run).(inflight := RunOf(c, run).inflight + 1));
    var h := Store.HashOf(s, run);
    var s1 := if run == "" then s else Store.PutRun(s, run, h.(inflight := h.inflight + 1));
    if run != "" {
      TakeRun(c, s, run);
      PutRunAgrees(c, s, run, RunOf(c, run).(inflight := h.inflight + 1), h.(inflight := h.inflight + 1));
    }
    var k := Store.KeyHashOf(s1, key);
    var c2 := Reserve(c, run, key);
    var s2 := if key == "" then s1 else Store.PutKey(s1, key, k.(inflight := k.inflight + 1));
    if key != "" {
      TakeKey(c1, s1, key);
      PutKeyAgrees(c1, s1, key, c1.keys[key].(inflight := k.inflight + 1), k.(inflight := k.inflight + 1));
    }
    MarkAgrees(c2, s2, run, key, tok, Store.Served);
    NoteAgrees(c2, Store.MarkAdmit(s2, run, key, tok, Store.Served), Store.Admitted(run, key, tok, forced));
  }

  lemma NoteAgrees(c: Ctl, s: Store.State, e: Store.Entry)
    requires Agree(c, s)
    ensures Agree(c, Store.Note(s, e))
  {
    BookkeepingAgrees(c, c, s, Store.Note(s, e));
  }

  lemma TakeKey(c: Ctl, s: Store.State, key: string)
    requires Agree(c, s) && key != "" && key in c.keys
    ensures KeyAgrees(key, c.keys[key], Store.KeyHashOf(s, key))
  {
    assert KeyStands(c, s, key);
  }

  lemma MarkAgrees(c: Ctl, s: Store.State, run: string, key: string, tok: Store.Token, mark: Store.Mark)
    requires Agree(c, s)
    ensures Agree(c, Store.MarkAdmit(s, run, key, tok, mark))
  {
    BookkeepingAgrees(c, c, s, Store.MarkAdmit(s, run, key, tok, mark));
  }

  lemma MarkSettledAgrees(c: Ctl, s: Store.State, run: string, key: string, tok: Store.Token)
    requires Agree(c, s)
    ensures Agree(c, Store.MarkSettled(s, run, key, tok))
  {
    BookkeepingAgrees(c, c, s, Store.MarkSettled(s, run, key, tok));
  }

  lemma StopRunAgrees(p: Policy, c: Ctl, s: Store.State, run: string, code: Store.Code, now: nat)
    requires Agree(c, s) && run != "" && (code.Calls? || code.Spend? || code.Loop?)
    ensures Agree(StopRun(p, c, run, ReasonOf(code, ""), now), Store.PauseRun(s, run, code))
  {
    hide Agree;
    TakeRun(c, s, run);
    var st := RunOf(c, run).(paused := true, reason := ReasonOf(code, ""));
    var h := Store.HashOf(s, run).(paused := true, reason := code);
    PutRunAgrees(c, s, run, st, h);
    BookkeepingAgrees(SetRun(c, run, st), StopRun(p, c, run, ReasonOf(code, ""), now),
                      Store.PutRun(s, run, h), Store.PauseRun(s, run, code));
  }

  lemma StopKeyAgrees(p: Policy, c: Ctl, s: Store.State, key: string, code: Store.Code, now: nat)
    requires Agree(c, s) && key != "" && key in c.keys && (code.KLife? || code.KDay?)
    ensures Agree(StopKey(p, c, key, ReasonOf(code, key), now), Store.PauseKey(s, key, code))
  {
    hide Agree;
    TakeKey(c, s, key);
    var reason := ReasonOf(code, key);
    var ks := c.keys[key].(paused := true, reason := reason, dayPause := code.KDay?);
    var k := Store.KeyHashOf(s, key).(paused := true, reason := code, dp := code.KDay?);
    PutKeyAgrees(c, s, key, ks, k);
    BookkeepingAgrees(SetKey(c, key, ks), StopKey(p, c, key, reason, now), Store.PutKey(s, key, k), Store.PauseKey(s, key, code));
  }

  // Admission.

  /** At this call's ceilings, rounding makes no difference. */
  ghost predicate CeilingsAgree(p: Policy, c: Ctl, s: Store.State, run: string, key: string) {
    && (run != "" ==> RunLimit(p, RunOf(c, run)) == ReasonOf(Store.RunCode(Store.LimitsOf(p), Store.HashOf(s, run)), ""))
    && (key != "" ==>
          key in c.keys
          && KeyLimit(p, key, c.keys[key]) == ReasonOf(Store.KeyCode(Store.LimitsOf(p), Store.KeyHashOf(s, key)), key))
  }

  function VerdictFor(p: Policy, s: Store.State, run: string, key: string, bypass: bool, now: nat): Store.Verdict {
    Store.VerdictOf(Store.LimitsOf(p), Store.RollKey(s, key, DayOf(now)), run, key, Store.ModeOf(p, bypass))
  }

  /** The script finds the call standing as the controller does. */
  lemma VerdictAgrees(p: Policy, c: Ctl, s: Store.State, run: string, key: string, bypass: bool, now: nat)
    requires Agree(c, s)
    requires CeilingsAgree(p, Touch(c, run, key, now), Store.RollKey(s, key, DayOf(now)), run, key)
    ensures
      var c1 := Touch(c, run, key, now);
      match StandingOf(p, c1, run, key, bypass)
      case Clear => VerdictFor(p, s, run, key, bypass, now) == Store.Free
      case RunPaused => VerdictFor(p, s, run, key, bypass, now) == Store.HeldRun
      case KeyPaused => VerdictFor(p, s, run, key, bypass, now) == Store.HeldKey
      case KeyAtCap =>
        var v := VerdictFor(p, s, run, key, bypass, now);
        !bypass && v.StopsKey? && KeyLimit(p, key, c1.keys[key]) == ReasonOf(v.code, key) && (v.code.KLife? || v.code.KDay?)
      case RunAtCap =>
        var v := VerdictFor(p, s, run, key, bypass, now);
        !bypass && v.StopsRun? && RunLimit(p, RunOf(c1, run)) == ReasonOf(v.code, "") && (v.code.Calls? || v.code.Spend?)
  {
    hide RunLimit, KeyLimit, Projected, Reserved, Touch, Store.CapOf, Store.RollKey;
    var c1, s1 := Touch(c, run, key, now), Store.RollKey(s, key, DayOf(now));
    TouchAgrees(c, s, run, key, now);
    if run != "" {
      TakeRun(c1, s1, run);
    }
    if key != "" {
      TakeKey(c1, s1, key);
    }
  }

  /** The counters once the call is served, or refused with a mark beside its token. */
  lemma ServedOrRefused(c: Ctl, s: Store.State, run: string, key: string, tok: Store.Token, forced: bool, mark: Store.Mark)
    requires Agree(c, s) && (key != "" ==> key in c.keys)
    ensures Agree(Reserve(c, run, key), Store.Reserve(s, run, key, tok, forced))
    ensures Agree(c, Store.MarkAdmit(s, run, key, tok, mark))
  {
    ReserveAgrees(c, s, run, key, tok, forced);
    MarkAgrees(c, s, run, key, tok, mark);
  }

  lemma HeldReasons(c: Ctl, s: Store.State, run: string, key: string)
    requires Agree(c, s)
    ensures run != "" ==> RunOf(c, run).reason == ReasonOf(Store.HashOf(s, run).reason, key)
    ensures key != "" && key in c.keys ==> c.keys[key].reason == ReasonOf(Store.KeyHashOf(s, key).reason, key)
  {
    if run != "" {
      TakeRun(c, s, run);
    }
    if key != "" && key in c.keys {
      TakeKey(c, s, key);
    }
  }

  /** From agreeing counters, an admission whose ceilings agree is answered alike and leaves them agreeing. */
  lemma AdmitAgrees(p: Policy, c: Ctl, s: Store.State, run: string, key: string, bypass: bool, now: nat, tok: Store.Token)
    requires Agree(c, s) && (run != "" || key != "") && tok !in Store.TokensAt(s, run, key, tok).admits
    requires CeilingsAgree(p, Touch(c, run, key, now), Store.RollKey(s, key, DayOf(now)), run, key)
    ensures Answered(p, c, s, run, key, bypass, now, tok)
  {
    if c.killed {
      DeadAgrees(p, c, s, run, key, bypass, now, tok);
    } else {
      AliveAgrees(p, c, s, run, key, bypass, now, tok);
    }
  }

  lemma DeadAgrees(p: Policy, c: Ctl, s: Store.State, run: string, key: string, bypass: bool, now: nat, tok: Store.Token)
    requires Agree(c, s) && c.killed && (run != "" || key != "") && tok !in Store.TokensAt(s, run, key, tok).admits
    ensures
      var (s', a) := Store.Admit(Store.LimitsOf(p), s, run, key, Store.ModeOf(p, bypass), DayOf(now), tok);
      s' == s && ReplyOf(a, key) == Reply(false, KillSwitch)
  {
    hide Store.RollKey, Store.Reserve, Store.MarkAdmit, Store.KeyCode, Store.RunCode;
  }

  lemma KillAgrees(c: Ctl, s: Store.State)
    requires Agree(c, s)
    ensures c.killed == s.killed
  {
  }

  /** The two answer an admission alike, and agree after it. */
  ghost predicate Answered(p: Policy, c: Ctl, s: Store.State, run: string, key: string, bypass: bool, now: nat, tok: Store.Token)
    requires run != "" || key != ""
  {
    var o := AdmitCall(p, c, run, key, bypass, now);
    var (s', a) := Store.Admit(Store.LimitsOf(p), s, run, key, Store.ModeOf(p, bypass), DayOf(now), tok);
    Agree(o.ctl, s') && ReplyOf(a, key) == o.reply
  }

  lemma StoppedKeyAgrees(
    p: Policy, c: Ctl, s: Store.State, run: string, key: string, bypass: bool, now: nat, tok: Store.Token)
    requires Agree(c, s) && !c.killed && (run != "" || key != "") && tok !in Store.TokensAt(s, run, key, tok).admits
    requires CeilingsAgree(p, Touch(c, run, key, now), Store.RollKey(s, key, DayOf(now)), run, key)
    requires VerdictFor(p, s, run, key, bypass, now).StopsKey?
    ensures Answered(p, c, s, run, key, bypass, now, tok)
  {
    hide Agree, RunLimit, KeyLimit, Touch, StandingOf, Reserve, StopRun, StopKey, CeilingsAgree;
    hide Store.VerdictOf, Store.RollKey, Store.Reserve, Store.MarkAdmit, Store.PauseRun, Store.PauseKey;
    var c1, s1 := Touch(c, run, key, now), Store.RollKey(s, key, DayOf(now));
    VerdictAgrees(p, c, s, run, key, bypass, now);
    KillAgrees(c, s);
    TouchAgrees(c, s, run, key, now);
    var code := VerdictFor(p, s, run, key, bypass, now).code;
    StopKeyAgrees(p, c1, s1, key, code, now);
    ServedOrRefused(StopKey(p, c1, key, ReasonOf(code, key), now), Store.PauseKey(s1, key, code),
                    run, key, tok, bypass, Store.Refused(code));
  }

  lemma StoppedRunAgrees(
    p: Policy, c: Ctl, s: Store.State, run: string, key: string, bypass: bool, now: nat, tok: Store.Token)
    requires Agree(c, s) && !c.killed && (run != "" || key != "") && tok !in Store.TokensAt(s, run, key, tok).admits
    requires CeilingsAgree(p, Touch(c, run, key, now), Store.RollKey(s, key, DayOf(now)), run, key)
    requires VerdictFor(p, s, run, key, bypass, now).StopsRun?
    ensures Answered(p, c, s, run, key, bypass, now, tok)
  {
    hide Agree, RunLimit, KeyLimit, Touch, StandingOf, Reserve, StopRun, StopKey, CeilingsAgree;
    hide Store.VerdictOf, Store.RollKey, Store.Reserve, Store.MarkAdmit, Store.PauseRun, Store.PauseKey;
    var c1, s1 := Touch(c, run, key, now), Store.RollKey(s, key, DayOf(now));
    VerdictAgrees(p, c, s, run, key, bypass, now);
    KillAgrees(c, s);
    TouchAgrees(c, s, run, key, now);
    var code := VerdictFor(p, s, run, key, bypass, now).code;
    StopRunAgrees(p, c1, s1, run, code, now);
    ServedOrRefused(StopRun(p, c1, run, ReasonOf(code, ""), now), Store.PauseRun(s1, run, code),
                    run, key, tok, bypass, Store.Refused(code));
  }

  lemma UnstoppedAgrees(
    p: Policy, c: Ctl, s: Store.State, run: string, key: string, bypass: bool, now: nat, tok: Store.Token)
    requires Agree(c, s) && !c.killed && (run != "" || key != "") && tok !in Store.TokensAt(s, run, key, tok).admits
    requires CeilingsAgree(p, Touch(c, run, key, now), Store.RollKey(s, key, DayOf(now)), run, key)
    requires var v := VerdictFor(p, s, run, key, bypass, now); !v.StopsKey? && !v.StopsRun?
    ensures Answered(p, c, s, run, key, bypass, now, tok)
  {
    hide Agree, RunLimit, KeyLimit, Touch, StandingOf, Reserve, StopRun, StopKey, CeilingsAgree;
    hide Store.VerdictOf, Store.RollKey, Store.Reserve, Store.MarkAdmit, Store.PauseRun, Store.PauseKey;
    var c1, s1 := Touch(c, run, key, now), Store.RollKey(s, key, DayOf(now));
    VerdictAgrees(p, c, s, run, key, bypass, now);
    KillAgrees(c, s);
    TouchAgrees(c, s, run, key, now);
    HeldReasons(c1, s1, run, key);
    ServedOrRefused(c1, s1, run, key, tok, bypass, Store.Served);
  }

  lemma AliveAgrees(
    p: Policy, c: Ctl, s: Store.State, run: string, key: string, bypass: bool, now: nat, tok: Store.Token)
    requires Agree(c, s) && !c.killed && (run != "" || key != "") && tok !in Store.TokensAt(s, run, key, tok).admits
    requires CeilingsAgree(p, Touch(c, run, key, now), Store.RollKey(s, key, DayOf(now)), run, key)
    ensures Answered(p, c, s, run, key, bypass, now, tok)
  {
    hide *;
    match VerdictFor(p, s, run, key, bypass, now) {
      case StopsKey(_) => StoppedKeyAgrees(p, c, s, run, key, bypass, now, tok);
      case StopsRun(_) => StoppedRunAgrees(p, c, s, run, key, bypass, now, tok);
      case _ => UnstoppedAgrees(p, c, s, run, key, bypass, now, tok);
    }
  }

  // Settlement and the rest.

  lemma TripsAgree(p: Policy, key: string, st: RunState, h: Store.RunHash, ks: KeyState, k: Store.KeyHash, loop: bool)
    requires WholePolicy(p)
    ensures RunAgrees(st, h) ==>
              var code := Store.RunTripCode(Store.LimitsOf(p), h, loop);
              RunTrips(p, st, loop) == ReasonOf(code, "") && (code == Store.NoCode || code.Calls? || code.Spend? || code.Loop?)
    ensures KeyAgrees(key, ks, k) ==>
              var code := Store.KeyTripCode(Store.LimitsOf(p), k);
              KeyTrips(p, key, ks) == ReasonOf(code, key) && (code == Store.NoCode || code.KLife? || code.KDay?)
  {
    hide Micro;
    if RunAgrees(st, h) {
      CapsAgree(p, st, h);
      WholeNumber(h.spend);
    }
    KeyCapsAgree(p);
    WholeNumber(k.lspend);
    WholeNumber(k.dspend);
  }

  lemma RecordRunAgrees(p: Policy, c: Ctl, s: Store.State, run: string, cost: int, loop: bool, now: nat)
    requires WholePolicy(p) && Agree(c, s) && run != ""
    ensures
      Agree(RecordRun(p, c, run, cost as real, loop, now),
            Store.PutRun(s, run, Store.ChargeRun(Store.LimitsOf(p), Store.HashOf(s, run), cost, loop)))
  {
    hide Agree, RunTrips, Store.RunTripCode;
    var l := Store.LimitsOf(p);
    var h := Store.HashOf(s, run);
    var st1 := ChargedRun(RunOf(c, run), cost as real, now);
    var h1 := h.(inflight := Dec(h.inflight), calls := h.calls + 1, spend := h.spend + cost);
    var code := Store.RunTripCode(l, h1, loop);
    TakeRun(c, s, run);
    TripsAgree(p, "", st1, h1, FreshKey(0), Store.NO_KEY, loop);
    PutRunAgrees(c, s, run, st1, h1);
    var c1, s1 := SetRun(c, run, st1), Store.PutRun(s, run, h1);
    if !h.paused && code != Store.NoCode {
      StopRunAgrees(p, c1, s1, run, code, now);
      assert s1.runs[run := h1.(paused := true, reason := code)] == s.runs[run := h1.(paused := true, reason := code)];
    }
  }

  lemma RecordKeyAgrees(p: Policy, c: Ctl, s: Store.State, key: string, cost: int, now: nat)
    requires WholePolicy(p) && Agree(c, s) && key != ""
    ensures
      Agree(RecordKey(p, c, key, cost as real, now),
            Store.PutKey(s, key, Store.ChargeKey(Store.LimitsOf(p), Store.RollHash(Store.KeyHashOf(s, key), DayOf(now)), cost)))
  {
    hide Agree, KeyTrips, Store.KeyTripCode, KeyAt, Store.RollHash;
    var l := Store.LimitsOf(p);
    var k := Store.RollHash(Store.KeyHashOf(s, key), DayOf(now));
    var ks1 := ChargedKey(KeyAt(c, key, now), cost as real);
    var k1 := k.(inflight := Dec(k.inflight), dcalls := k.dcalls + 1, dspend := k.dspend + cost,
                 lcalls := k.lcalls + 1, lspend := k.lspend + cost);
    var code := Store.KeyTripCode(l, k1);
    RollAgrees(c, s, key, now);
    TripsAgree(p, key, FRESH_RUN, Store.NO_RUN, ks1, k1, false);
    PutKeyAgrees(c, s, key, ks1, k1);
    var c1, s1 := SetKey(c, key, ks1), Store.PutKey(s, key, k1);
    if !k.paused && code != Store.NoCode {
      StopKeyAgrees(p, c1, s1, key, code, now);
      var k2 := k1.(paused := true, reason := code, dp := code.KDay?);
      assert s1.keys[key := k2] == s.keys[key := k2];
    }
  }

  /** Settling a call on its key first and its run second, or the other way round, leaves the same tallies. */
  lemma RecordCommutes(p: Policy, c: Ctl, run: string, key: string, cost: real, loop: bool, now: nat)
    ensures
      var a, b := RecordRun(p, RecordKey(p, c, key, cost, now), run, cost, loop, now),
                  RecordKey(p, RecordRun(p, c, run, cost, loop, now), key, cost, now);
      a.killed == b.killed && a.runs == b.runs && a.keys == b.keys
  {
    hide RunTrips, KeyTrips;
  }

  lemma RecordAgrees(
    p: Policy, c: Ctl, s: Store.State, run: string, key: string, cost: int, loop: bool, now: nat, tok: Store.Token)
    requires WholePolicy(p) && Agree(c, s) && (run != "" || key != "") && tok !in Store.TokensAt(s, run, key, tok).settled
    ensures Agree(Core(p, c, Op.Record(run, key, cost as real, loop), now).ctl,
                  Store.Record(Store.LimitsOf(p), s, run, key, cost, loop, DayOf(now), tok))
  {
    hide Agree, RecordRun, RecordKey, Store.ChargeRun, Store.ChargeKey, Store.MarkSettled;
    var l := Store.LimitsOf(p);
    var s1 := Store.MarkSettled(s, run, key, tok);
    MarkSettledAgrees(c, s, run, key, tok);
    var c2 := if run == "" then c else RecordRun(p, c, run, cost as real, loop, now);
    var s2 := if run == "" then s1 else Store.PutRun(s1, run, Store.ChargeRun(l, Store.HashOf(s1, run), cost, loop));
    if run != "" {
      RecordRunAgrees(p, c, s1, run, cost, loop, now);
    }
    var c3 := if key == "" then c2 else RecordKey(p, c2, key, cost as real, now);
    var s3 := if key == "" then s2
              else Store.PutKey(s2, key, Store.ChargeKey(l, Store.RollHash(Store.KeyHashOf(s2, key), DayOf(now)), cost));
    if key != "" {
      RecordKeyAgrees(p, c2, s2, key, cost, now);
    }
    NoteAgrees(c3, s3, Store.Recorded(run, key, tok, cost));
    RecordCommutes(p, c, run, key, cost as real, loop, now);
    SameTallies(c3, Core(p, c, Op.Record(run, key, cost as real, loop), now).ctl,
                Store.Note(s3, Store.Recorded(run, key, tok, cost)));
  }

  lemma SameTallies(c: Ctl, c': Ctl, s: Store.State)
    requires Agree(c, s) && c'.killed == c.killed && c'.runs == c.runs && c'.keys == c.keys
    ensures Agree(c', s)
  {
    BookkeepingAgrees(c, c', s, s);
  }

  /** Returning a reservation on a run; a run not tracked has none to return. */
  lemma ReleaseRunAgrees(c: Ctl, s: Store.State, run: string)
    requires Agree(c, s) && run != ""
    ensures
      var h := Store.HashOf(s, run);
      Agree(if run in c.runs then SetRun(c, run, c.runs[run].(inflight := Dec(c.runs[run].inflight))) else c,
            Store.PutRun(s, run, h.(inflight := Dec(h.inflight))))
  {
    hide Agree;
    var h := Store.HashOf(s, run);
    TakeRun(c, s, run);
    var st := RunOf(c, run).(inflight := Dec(h.inflight));
    PutRunAgrees(c, s, run, st, h.(inflight := Dec(h.inflight)));
    if run !in c.runs {
      assert h.(inflight := Dec(h.inflight)) == h;
      BookkeepingAgrees(c, c, s, Store.PutRun(s, run, h));
    }
  }

  lemma ReleaseKeyAgrees(c: Ctl, s: Store.State, key: string)
    requires Agree(c, s) && key != ""
    ensures
      Agree(if key in c.keys then SetKey(c, key, c.keys[key].(inflight := Dec(c.keys[key].inflight))) else c,
            if key in s.keys then Store.PutKey(s, key, s.keys[key].(inflight := Dec(s.keys[key].inflight))) else s)
  {
    hide Agree;
    if key in c.keys {
      TakeKey(c, s, key);
      var k := Store.KeyHashOf(s, key);
      PutKeyAgrees(c, s, key, c.keys[key].(inflight := Dec(k.inflight)), k.(inflight := Dec(k.inflight)));
    } else if key in s.keys {
      UntrackedKey(c, s, key);
      BookkeepingAgrees(c, c, s, Store.PutKey(s, key, s.keys[key]));
    }
  }

  lemma UntrackedKey(c: Ctl, s: Store.State, key: string)
    requires Agree(c, s) && key != "" && key !in c.keys && key in s.keys
    ensures s.keys[key] == Store.NO_KEY && s.keys[key := s.keys[key]] == s.keys
  {
    assert KeyStands(c, s, key);
  }

  lemma ReleaseAgrees(c: Ctl, s: Store.State, run: string, key: string, tok: Store.Token)
    requires Agree(c, s) && (run != "" || key != "") && tok !in Store.TokensAt(s, run, key, tok).settled
    ensures Agree(ReleaseCall(c, run, key), Store.Release(s, run, key, tok))
  {
    hide Agree, Store.MarkSettled;
    var s1 := Store.MarkSettled(s, run, key, tok);
    MarkSettledAgrees(c, s, run, key, tok);
    var h := Store.HashOf(s1, run);
    var s2 := if run == "" then s1 else Store.PutRun(s1, run, h.(inflight := Dec(h.inflight)));
    var c2 := if run != "" && run in c.runs then SetRun(c, run, c.runs[run].(inflight := Dec(h.inflight))) else c;
    if run != "" {
      TakeRun(c, s1, run);
      ReleaseRunAgrees(c, s1, run);
    }
    var s3 := if key == "" || key !in s2.keys then s2
              else Store.PutKey(s2, key, s2.keys[key].(inflight := Dec(s2.keys[key].inflight)));
    var c3 := if key != "" && key in c2.keys then SetKey(c2, key, c2.keys[key].(inflight := Dec(c2.keys[key].inflight))) else c2;
    if key != "" {
      ReleaseKeyAgrees(c2, s2, key);
    }
    NoteAgrees(c3, s3, Store.Released(run, key, tok));
  }

  /** An operation that is neither an admission nor a settlement. */
  predicate Operators(op: Op) {
    !op.Admit? && !op.Record? && !op.Release?
  }

  lemma OperatorRunAgrees(p: Policy, c: Ctl, s: Store.State, op: Op, now: nat, tok: Store.Token, r: string)
    requires WholePolicy(p) && Agree(c, s) && Plain(p, op) && Operators(op) && r != ""
    ensures RunAgrees(RunOf(Core(p, c, op, now).ctl, r), Store.HashOf(Sent(p, s, op, now, tok).0, r))
  {
    hide Micro, AdmitCall, RecordRun, RecordKey, ReleaseCall, KeyStands, Store.WriteKeyPause;
    assert RunAgrees(RunOf(c, r), Store.HashOf(s, r));
  }

  lemma OperatorKeyAgrees(p: Policy, c: Ctl, s: Store.State, op: Op, now: nat, tok: Store.Token, k: string)
    requires WholePolicy(p) && Agree(c, s) && Plain(p, op) && Operators(op) && k != ""
    ensures KeyStands(Core(p, c, op, now).ctl, Sent(p, s, op, now, tok).0, k)
  {
    hide Micro, AdmitCall, RecordRun, RecordKey, ReleaseCall, RunAgrees;
    assert KeyStands(c, s, k);
  }

  lemma OperatorReplyAgrees(p: Policy, c: Ctl, s: Store.State, op: Op, now: nat, tok: Store.Token)
    requires WholePolicy(p) && Agree(c, s) && Plain(p, op) && Operators(op)
    ensures
      var (s', reply) := Sent(p, s, op, now, tok);
      var o := Core(p, c, op, now);
      reply == o.reply && s'.killed == o.ctl.killed
  {
    hide Micro, AdmitCall, RecordRun, RecordKey, ReleaseCall;
    if op.ResumeRun? {
      assert RunAgrees(RunOf(c, op.run), Store.HashOf(s, op.run));
    } else if op.ResumeKey? {
      assert KeyStands(c, s, op.key);
    }
  }

  lemma OperatorAgrees(p: Policy, c: Ctl, s: Store.State, op: Op, now: nat, tok: Store.Token)
    requires WholePolicy(p) && Agree(c, s) && Plain(p, op) && Operators(op)
    ensures var (s', reply) := Sent(p, s, op, now, tok); Agree(Core(p, c, op, now).ctl, s') && reply == Core(p, c, op, now).reply
  {
    hide Core, Sent, RunAgrees, KeyStands, WholePolicy, Plain;
    OperatorReplyAgrees(p, c, s, op, now, tok);
    var c', s' := Core(p, c, op, now).ctl, Sent(p, s, op, now, tok).0;
    forall r | r != "" ensures RunAgrees(RunOf(c', r), Store.HashOf(s', r)) {
      OperatorRunAgrees(p, c, s, op, now, tok, r);
    }
    forall k | k != "" ensures KeyStands(c', s', k) {
      OperatorKeyAgrees(p, c, s, op, now, tok, k);
    }
  }

  // Whole traces.

  lemma CheapStep(p: Policy, c: Ctl, op: Op, now: nat)
    requires p.floor >= 0.0 && CheapSoFar(p, c) && WithinFloor(p, op)
    ensures CheapSoFar(p, Core(p, c, op, now).ctl)
  {
    hide Core, RunLimit, KeyBounds.BelowTotalCap;
    var c' := Core(p, c, op, now).ctl;
    forall r | r != "" ensures RunWithinFloor(p, RunOf(c', r)) {
      assert RunWithinFloor(p, RunOf(c, r));
      match op {
        case Admit(run, key, bypass) => RunBounds.AdmitRun(p, c, run, key, bypass, now, r);
        case Record(run, key, cost, loop) => RunBounds.RecordRunEffect(p, c, run, key, cost, loop, now, r);
        case _ => RunBounds.OtherRun(p, c, op, now, r);
      }
    }
    forall k | k != "" ensures KeyWithinFloor(p, KeyBounds.TotalsOf(c', k)) {
      assert KeyWithinFloor(p, KeyBounds.TotalsOf(c, k));
      match op {
        case Admit(run, key, bypass) => KeyBounds.AdmitKey(p, c, run, key, bypass, now, k);
        case Record(run, key, cost, loop) => KeyBounds.RecordKeyEffect(p, c, run, key, cost, loop, now, k);
        case _ => KeyBounds.OtherKey(p, c, op, now, k);
      }
    }
  }

  /** Within the floor, the two meet the same ceilings. */
  lemma CheapCeilingsAgree(p: Policy, c: Ctl, s: Store.State, run: string, key: string, now: nat)
    requires WholePolicy(p) && Agree(c, s) && CheapSoFar(p, c)
    ensures CeilingsAgree(p, Touch(c, run, key, now), Store.RollKey(s, key, DayOf(now)), run, key)
  {
    hide Agree, RunLimit, KeyLimit, Store.RunCode, Store.KeyCode, Touch, Store.RollKey;
    var c1, s1 := Touch(c, run, key, now), Store.RollKey(s, key, DayOf(now));
    TouchAgrees(c, s, run, key, now);
    if run != "" {
      TakeRun(c1, s1, run);
      RunBounds.TouchRun(c, run, key, now, run);
      assert RunWithinFloor(p, RunOf(c, run));
      RunLimitsAgree(p, RunOf(c1, run), Store.HashOf(s1, run));
    }
    if key != "" {
      TakeKey(c1, s1, key);
      KeyBounds.TouchKey(c, run, key, now, key);
      assert KeyWithinFloor(p, KeyBounds.TotalsOf(c, key));
      KeyLimitsAgree(p, key, c1.keys[key], Store.KeyHashOf(s1, key));
    }
  }

  lemma StepAgrees(p: Policy, c: Ctl, s: Store.State, op: Op, now: nat, tok: Store.Token)
    requires WholePolicy(p) && Agree(c, s) && CheapSoFar(p, c) && Plain(p, op) && FreshFor(s, op, tok)
    ensures var (s', reply) := Sent(p, s, op, now, tok); Agree(Core(p, c, op, now).ctl, s') && reply == Core(p, c, op, now).reply
  {
    hide Agree, CheapSoFar, AdmitCall, RecordRun, RecordKey, ReleaseCall;
    hide Store.Admit, Store.Record, Store.Release, Store.TokensAt;
    match op {
      case Admit(run, key, bypass) =>
        if run != "" || key != "" {
          CheapCeilingsAgree(p, c, s, run, key, now);
          AdmitAgrees(p, c, s, run, key, bypass, now, tok);
        } else {
          NoIdAgrees(p, c, s, bypass, now);
        }
      case Record(run, key, cost, loop) =>
        if run != "" || key != "" {
          RecordAgrees(p, c, s, run, key, Micro(cost), loop, now, tok);
        }
      case Release(run, key) =>
        if run != "" || key != "" {
          ReleaseAgrees(c, s, run, key, tok);
        } else {
          assert ReleaseCall(c, "", "") == c by { ReleaseNothing(c); }
        }
      case _ => OperatorAgrees(p, c, s, op, now, tok);
    }
  }

  lemma NoIdAgrees(p: Policy, c: Ctl, s: Store.State, bypass: bool, now: nat)
    requires Agree(c, s)
    ensures AdmitCall(p, c, "", "", bypass, now).ctl == c
    ensures AdmitCall(p, c, "", "", bypass, now).reply == if s.killed then Reply(false, KillSwitch) else Reply(true, NoReason)
  {
  }

  lemma ReleaseNothing(c: Ctl)
    ensures ReleaseCall(c, "", "") == c
  {
  }

  /** One operation, the instant both counters see it at, and the token the store is given. */
  datatype Sending = Sending(op: Op, now: nat, tok: Store.Token)

  /** Every operation is plain, every token is fresh for what it is sent for. */
  ghost predicate AllFresh(p: Policy, s: Store.State, xs: seq<Sending>)
    decreases |xs|
  {
    xs == [] ||
    (var x := xs[0];
     Plain(p, x.op) && FreshFor(s, x.op, x.tok) && AllFresh(p, Sent(p, s, x.op, x.now, x.tok).0, xs[1..]))
  }

  /** The two counters answer every operation alike, and their tallies agree before, between and after. */
  ghost predicate InStep(p: Policy, c: Ctl, s: Store.State, xs: seq<Sending>)
    decreases |xs|
  {
    && Agree(c, s)
    && (xs != [] ==>
          var x := xs[0];
          var (s', reply) := Sent(p, s, x.op, x.now, x.tok);
          reply == Core(p, c, x.op, x.now).reply && InStep(p, Core(p, c, x.op, x.now).ctl, s', xs[1..]))
  }

  /** The refinement: from agreeing counters, and so from empty ones, the two stay in step on every trace. */
  lemma {:induction false} StoreRefinesController(p: Policy, c: Ctl, s: Store.State, xs: seq<Sending>)
    requires WholePolicy(p) && Agree(c, s) && CheapSoFar(p, c) && AllFresh(p, s, xs)
    ensures InStep(p, c, s, xs)
    decreases |xs|
  {
    hide Agree, CheapSoFar, Core, Sent, FreshFor, WholePolicy;
    if xs != [] {
      var x := xs[0];
      StepAgrees(p, c, s, x.op, x.now, x.tok);
      FloorIsNonNegative(p);
      CheapStep(p, c, x.op, x.now);
      StoreRefinesController(p, Core(p, c, x.op, x.now).ctl, Sent(p, s, x.op, x.now, x.tok).0, xs[1..]);
    }
  }

  lemma FloorIsNonNegative(p: Policy)
    requires WholePolicy(p)
    ensures p.floor >= 0.0
  {
  }

  lemma EmptyCountersAgree(p: Policy)
    ensures Agree(EMPTY, Store.EMPTY_STORE) && CheapSoFar(p, EMPTY)
  {
  }

  /**
    Without the floor: from agreeing counters, an admission is answered differently, or leaves
    the tallies disagreeing, only when its run's or its key's projected spend lies within half a
    micro-dollar below a cap.
   */
  lemma AdmissionsPartOnlyInTheGap(
    p: Policy, c: Ctl, s: Store.State, run: string, key: string, bypass: bool, now: nat, tok: Store.Token)
    requires WholePolicy(p) && Agree(c, s) && (run != "" || key != "") && tok !in Store.TokensAt(s, run, key, tok).admits
    ensures
      var o := AdmitCall(p, c, run, key, bypass, now);
      var (s', a) := Store.Admit(Store.LimitsOf(p), s, run, key, Store.ModeOf(p, bypass), DayOf(now), tok);
      var l, c1, s1 := Store.LimitsOf(p), Touch(c, run, key, now), Store.RollKey(s, key, DayOf(now));
      || (Agree(o.ctl, s') && ReplyOf(a, key) == o.reply)
      || (run != "" && InTheGap(RunFigure(p, RunOf(c1, run)), Store.CapOf(l, Store.HashOf(s1, run))))
      || (key != "" && (InTheGap(TotalFigure(p, c1.keys[key]), l.klife) || InTheGap(DayFigure(p, c1.keys[key]), l.kday)))
  {
    hide Agree, AdmitCall, RunLimit, KeyLimit, Projected, Reserved, Touch;
    hide Store.Admit, Store.RunCode, Store.KeyCode, Store.RollKey, Store.TokensAt;
    var c1, s1 := Touch(c, run, key, now), Store.RollKey(s, key, DayOf(now));
    TouchAgrees(c, s, run, key, now);
    if run != "" {
      TakeRun(c1, s1, run);
      RunLimitsPartOnlyInTheGap(p, RunOf(c1, run), Store.HashOf(s1, run));
    }
    if key != "" {
      TakeKey(c1, s1, key);
      KeyLimitsPartOnlyInTheGap(p, key, c1.keys[key], Store.KeyHashOf(s1, key));
    }
    if CeilingsAgree(p, c1, s1, run, key) {
      AdmitAgrees(p, c, s, run, key, bypass, now, tok);
    }
  }
}

/**
  Stops and clears alternate: one stop event per pause, and a pause ends only by the hand it
  is meant to end by.
 */
module Pauses {
  import opened Money
  import opened Control
  import opened Histories

  /** Whether a stop event tells of s. */
  predicate TellsOf(ev: StopEvent, s: Subject) {
    if s.Run? then ev.run == s.id else ev.key == s.id
  }

  /** How many of the stop events tell of s. */
  function StopsOf(stops: seq<StopEvent>, s: Subject): nat {
    if stops == [] then 0
    else StopsOf(stops[..|stops| - 1], s) + if TellsOf(stops[|stops| - 1], s) then 1 else 0
  }

  lemma OneMoreStop(stops: seq<StopEvent>, ev: StopEvent, s: Subject)
    ensures StopsOf(stops + [ev], s) == StopsOf(stops, s) + if TellsOf(ev, s) then 1 else 0
  {
    assert (stops + [ev])[..|stops|] == stops;
  }

  predicate IsPaused(c: Ctl, s: Subject) {
    if s.Run? then RunIsPaused(c, s.id) else KeyIsPaused(c, s.id)
  }

  /** 1 while s is paused, 0 otherwise. */
  function Bit(c: Ctl, s: Subject): nat {
    if IsPaused(c, s) then 1 else 0
  }

  /** Stop events so far, less the pauses lifted and the one standing: a constant of every run. */
  function Balance(w: World, s: Subject): int {
    StopsOf(w.ctl.stops, s) - w.ledger.resumes - w.ledger.midnights - Bit(w.ctl, s)
  }

  /** A subject with a name, so that an event that tells of nothing is not taken to tell of it. */
  predicate Named(s: Subject) {
    s.id != ""
  }

  lemma StopRunBalance(p: Policy, c: Ctl, run: string, reason: Reason, now: nat, s: Subject)
    requires Named(s) && run != "" && (reason != NoReason ==> !RunIsPaused(c, run))
    ensures var c' := StopRun(p, c, run, reason, now); StopsOf(c'.stops, s) - Bit(c', s) == StopsOf(c.stops, s) - Bit(c, s)
  {
    var st := RunOf(c, run);
    OneMoreStop(c.stops, StopEvent(run, "", reason, st.calls, st.spend, now, p.shadow, false), s);
  }

  lemma StopKeyBalance(p: Policy, c: Ctl, key: string, reason: Reason, now: nat, s: Subject)
    requires Named(s) && key != "" && key in c.keys && (reason != NoReason ==> !c.keys[key].paused)
    ensures var c' := StopKey(p, c, key, reason, now); StopsOf(c'.stops, s) - Bit(c', s) == StopsOf(c.stops, s) - Bit(c, s)
  {
    var ks := c.keys[key];
    var day := reason.KeyDayCap?;
    OneMoreStop(c.stops, StopEvent("", key, reason, if day then ks.dayCalls else ks.lifeCalls,
                                   if day then ks.daySpend else ks.lifeSpend, now, p.shadow, day), s);
  }

  /** Daily pauses are pauses. */
  ghost predicate DayPausesArePauses(c: Ctl) {
    forall k :: k in c.keys && c.keys[k].dayPause ==> c.keys[k].paused
  }

  lemma JudgeKeepsDays(p: Policy, c: Ctl, run: string, key: string, standing: Standing, now: nat)
    requires (key != "" ==> key in c.keys) && (standing == KeyAtCap ==> key != "") && DayPausesArePauses(c)
    ensures DayPausesArePauses(Judge(p, c, run, key, standing, now))
  {
  }

  /** Touching lifts a pause exactly when midnight does. */
  lemma TouchBalance(c: Ctl, run: string, key: string, now: nat, s: Subject)
    requires Named(s) && DayPausesArePauses(c)
    ensures Bit(Touch(c, run, key, now), s)
         == Bit(c, s) - if s == Key(key) && LiftedAtMidnight(c, key, now) then 1 else 0
    ensures DayPausesArePauses(Touch(c, run, key, now))
  {
  }

  lemma JudgeBalance(p: Policy, c: Ctl, run: string, key: string, bypass: bool, now: nat, s: Subject)
    requires Named(s) && (key != "" ==> key in c.keys) && DayPausesArePauses(c)
    ensures
      var c' := Judge(p, c, run, key, StandingOf(p, c, run, key, bypass), now);
      StopsOf(c'.stops, s) - Bit(c', s) == StopsOf(c.stops, s) - Bit(c, s) && DayPausesArePauses(c')
  {
    hide RunLimit, KeyLimit, StopRun, StopKey;
    match StandingOf(p, c, run, key, bypass) {
      case KeyAtCap => StopKeyBalance(p, c, key, KeyLimit(p, key, c.keys[key]), now, s);
      case RunAtCap => StopRunBalance(p, c, run, RunLimit(p, RunOf(c, run)), now, s);
      case _ =>
    }
    JudgeKeepsDays(p, c, run, key, StandingOf(p, c, run, key, bypass), now);
  }

  lemma ReserveBalance(c: Ctl, run: string, key: string, s: Subject)
    requires (key != "" ==> key in c.keys) && DayPausesArePauses(c)
    ensures Bit(Reserve(c, run, key), s) == Bit(c, s) && DayPausesArePauses(Reserve(c, run, key))
  {
  }

  lemma AdmitBalance(p: Policy, w: World, op: Op, now: nat, s: Subject)
    requires op.Admit? && Named(s) && DayPausesArePauses(w.ctl)
    ensures var w' := Operated(p, s, w, op, now); Balance(w', s) == Balance(w, s) && DayPausesArePauses(w'.ctl)
  {
    hide Touch, StandingOf, Judge, Reserve, Bit, StopsOf, DayPausesArePauses;
    var c, run, key := w.ctl, op.run, op.key;
    if !c.killed {
      var c1 := Touch(c, run, key, now);
      TouchBalance(c, run, key, now, s);
      JudgeBalance(p, c1, run, key, op.bypass, now, s);
      ReserveBalance(Judge(p, c1, run, key, StandingOf(p, c1, run, key, op.bypass), now), run, key, s);
    }
  }

  lemma RecordKeyBalance(p: Policy, c: Ctl, key: string, cost: real, now: nat, s: Subject)
    requires Named(s) && key != "" && DayPausesArePauses(c)
    ensures
      var c' := RecordKey(p, c, key, cost, now);
      && StopsOf(c'.stops, s) - Bit(c', s)
         == StopsOf(c.stops, s) - Bit(c, s) + (if s == Key(key) && LiftedAtMidnight(c, key, now) then 1 else 0)
      && DayPausesArePauses(c')
  {
    hide KeyTrips, StopsOf;
    var ks1 := ChargedKey(KeyAt(c, key, now), cost);
    StopKeyBalance(p, SetKey(c, key, ks1), key, if ks1.paused then NoReason else KeyTrips(p, key, ks1), now, s);
  }

  lemma RecordRunBalance(p: Policy, c: Ctl, run: string, cost: real, loop: bool, now: nat, s: Subject)
    requires Named(s) && run != ""
    ensures
      var c' := RecordRun(p, c, run, cost, loop, now);
      StopsOf(c'.stops, s) - Bit(c', s) == StopsOf(c.stops, s) - Bit(c, s)
  {
    hide RunTrips, StopsOf;
    var st1 := ChargedRun(RunOf(c, run), cost, now);
    StopRunBalance(p, SetRun(c, run, st1), run, if st1.paused then NoReason else RunTrips(p, st1, loop), now, s);
  }

  lemma RecordBalance(p: Policy, w: World, op: Op, now: nat, s: Subject)
    requires op.Record? && Named(s) && DayPausesArePauses(w.ctl)
    ensures var w' := Operated(p, s, w, op, now); Balance(w', s) == Balance(w, s) && DayPausesArePauses(w'.ctl)
  {
    hide RecordKey, RecordRun, Bit, StopsOf;
    var c1 := if op.key == "" then w.ctl else RecordKey(p, w.ctl, op.key, op.cost, now);
    if op.key != "" {
      RecordKeyBalance(p, w.ctl, op.key, op.cost, now, s);
    }
    if op.run != "" {
      RecordRunBalance(p, c1, op.run, op.cost, op.loop, now, s);
    }
  }

  lemma OtherBalance(p: Policy, w: World, op: Op, now: nat, s: Subject)
    requires !op.Record? && !op.Admit? && Named(s) && DayPausesArePauses(w.ctl)
    ensures var w' := Operated(p, s, w, op, now); Balance(w', s) == Balance(w, s) && DayPausesArePauses(w'.ctl)
  {
    hide AdmitCall, RecordKey, RecordRun, StopsOf;
  }

  /** Eviction drops nothing that is paused. */
  lemma DroppedBalance(p: Policy, w: World, s: Subject, op: Op, now: nat, e: Event)
    requires e.op == op && e.now == now && Legal(p, w.ctl, e)
    requires DayPausesArePauses(Operated(p, s, w, op, now).ctl)
    ensures
      var w1 := Operated(p, s, w, op, now);
      Balance(Dropped(w1, s, e), s) == Balance(w1, s) && DayPausesArePauses(Dropped(w1, s, e).ctl)
  {
    hide Core, StopsOf, Tally;
    var c1 := Core(p, w.ctl, op, now).ctl;
    assert forall id :: id in e.runVictims ==> id in Active(RunAges(c1.runs));
    assert forall id :: id in e.keyVictims ==> id in Active(KeyAges(c1.keys));
  }

  lemma {:induction false} BalancePlay(p: Policy, s: Subject, w: World, es: seq<Event>)
    requires Named(s) && DayPausesArePauses(w.ctl) && Possible(p, s, w, es)
    ensures var end := Play(p, s, w, es); Balance(end, s) == Balance(w, s) && DayPausesArePauses(end.ctl)
    decreases |es|
  {
    hide Core, Tally, Balance, DayPausesArePauses, Legal, Dropped, Operated, Settles;
    if es != [] {
      var e := es[0];
      match e.op {
        case Admit(_, _, _) => AdmitBalance(p, w, e.op, e.now, s);
        case Record(_, _, _, _) => RecordBalance(p, w, e.op, e.now, s);
        case _ => OtherBalance(p, w, e.op, e.now, s);
      }
      DroppedBalance(p, w, s, e.op, e.now, e);
      BalancePlay(p, s, Next(p, s, w, e), es[1..]);
    }
  }

  /**
    Stops and clears alternate: over any trace from an empty controller, the stop events sent
    for a run or a key, less the pauses an operator lifted and (for a key) those midnight
    lifted, number 1 while it is paused and 0 while it is not.
   */
  lemma {:induction false} StopsAndClearsAlternate(p: Policy, s: Subject, es: seq<Event>, w: World, end: World)
    requires Named(s) && w == World(EMPTY, NEW_LEDGER)
    requires Possible(p, s, w, es) && end == Play(p, s, w, es)
    ensures StopsOf(end.ctl.stops, s) - end.ledger.resumes - end.ledger.midnights == if IsPaused(end.ctl, s) then 1 else 0
    ensures s.Run? ==> end.ledger.midnights == 0
  {
    hide Core, Tally, DayPausesArePauses, Legal, Play, Possible;
    assert DayPausesArePauses(w.ctl) by { EmptyHasNoPauses(); }
    BalancePlay(p, s, w, es);
    if s.Run? {
      RunsHaveNoMidnight(p, s, w, es);
    }
  }

  lemma EmptyHasNoPauses()
    ensures DayPausesArePauses(EMPTY)
  {
  }

  lemma {:induction false} RunsHaveNoMidnight(p: Policy, s: Subject, w: World, es: seq<Event>)
    requires s.Run? && w.ledger.midnights == 0
    ensures Play(p, s, w, es).ledger.midnights == 0
    decreases |es|
  {
    hide Core;
    if es != [] {
      RunsHaveNoMidnight(p, s, Next(p, s, w, es[0]), es[1..]);
    }
  }

  // Who may lift a pause.

  /** A pause an operator alone can lift: any pause of a run, and a key's total-cap pause. */
  predicate Held(c: Ctl, s: Subject) {
    IsPaused(c, s) && (s.Key? ==> !c.keys[s.id].dayPause)
  }

  function HeldFor(c: Ctl, s: Subject): Reason
    requires Held(c, s)
  {
    if s.Run? then c.runs[s.id].reason else c.keys[s.id].reason
  }

  predicate Resumes(op: Op, s: Subject) {
    op == (if s.Run? then ResumeRun(s.id) else ResumeKey(s.id))
  }

  /** c' still holds s for the reason c does. */
  predicate StillHeld(c: Ctl, c': Ctl, s: Subject) {
    Held(c, s) ==> Held(c', s) && HeldFor(c', s) == HeldFor(c, s)
  }

  lemma HeldThroughTouch(c: Ctl, run: string, key: string, now: nat, s: Subject)
    requires Named(s)
    ensures StillHeld(c, Touch(c, run, key, now), s)
  {
  }

  lemma HeldThroughJudge(p: Policy, c: Ctl, run: string, key: string, bypass: bool, now: nat, s: Subject)
    requires Named(s) && (key != "" ==> key in c.keys)
    ensures StillHeld(c, Judge(p, c, run, key, StandingOf(p, c, run, key, bypass), now), s)
  {
    hide RunLimit, KeyLimit;
  }

  lemma HeldThroughReserve(c: Ctl, run: string, key: string, s: Subject)
    requires Named(s) && (key != "" ==> key in c.keys)
    ensures StillHeld(c, Reserve(c, run, key), s)
  {
  }

  lemma HeldThroughRecordKey(p: Policy, c: Ctl, key: string, cost: real, now: nat, s: Subject)
    requires Named(s)
    ensures StillHeld(c, RecordKey(p, c, key, cost, now), s)
  {
    hide KeyTrips;
  }

  lemma HeldThroughRecordRun(p: Policy, c: Ctl, run: string, cost: real, loop: bool, now: nat, s: Subject)
    requires Named(s)
    ensures StillHeld(c, RecordRun(p, c, run, cost, loop, now), s)
  {
    hide RunTrips;
  }

  lemma HeldThroughOp(p: Policy, c: Ctl, s: Subject, op: Op, now: nat)
    requires Named(s) && !Resumes(op, s)
    ensures StillHeld(c, Core(p, c, op, now).ctl, s)
  {
    hide Touch, Judge, StandingOf, Reserve, RecordKey, RecordRun;
    match op {
      case Admit(run, key, bypass) =>
        if !c.killed {
          var c1 := Touch(c, run, key, now);
          HeldThroughTouch(c, run, key, now, s);
          HeldThroughJudge(p, c1, run, key, bypass, now, s);
          HeldThroughReserve(Judge(p, c1, run, key, StandingOf(p, c1, run, key, bypass), now), run, key, s);
        }
      case Record(run, key, cost, loop) =>
        HeldThroughRecordKey(p, c, key, cost, now, s);
        HeldThroughRecordRun(p, if key == "" then c else RecordKey(p, c, key, cost, now), run, cost, loop, now, s);
      case _ =>
    }
  }

  lemma HeldThroughEviction(p: Policy, c: Ctl, s: Subject, e: Event)
    requires Legal(p, c, e) && Held(Core(p, c, e.op, e.now).ctl, s)
    ensures var c1 := Core(p, c, e.op, e.now).ctl; Held(Apply(p, c, e), s) && HeldFor(Apply(p, c, e), s) == HeldFor(c1, s)
  {
    hide Core;
    var c1 := Core(p, c, e.op, e.now).ctl;
    assert s.id in e.runVictims ==> s.id in Active(RunAges(c1.runs));
    assert s.id in e.keyVictims ==> s.id in Active(KeyAges(c1.keys));
  }

  /**
    Only an operator's resume lifts a run's pause or a key's total-cap pause: without one, it
    stands with the reason it was made for, through midnights, evictions, bypasses and every
    other run's and key's traffic.
   */
  lemma {:induction false} HeldUntilResumed(p: Policy, s: Subject, w: World, es: seq<Event>)
    requires Named(s) && Held(w.ctl, s) && Possible(p, s, w, es)
    requires forall e <- es :: !Resumes(e.op, s)
    ensures var end := Play(p, s, w, es); Held(end.ctl, s) && HeldFor(end.ctl, s) == HeldFor(w.ctl, s)
    decreases |es|
  {
    hide Core, Held, HeldFor, Legal, Tally, Settles;
    if es != [] {
      HeldThroughOp(p, w.ctl, s, es[0].op, es[0].now);
      HeldThroughEviction(p, w.ctl, s, es[0]);
      HeldUntilResumed(p, s, Next(p, s, w, es[0]), es[1..]);
    }
  }

  /** A key's day never moves back while the key is tracked, however the clock lags. */
  lemma {:induction false} DayMovesForward(p: Policy, key: string, w: World, es: seq<Event>)
    requires key in w.ctl.keys
    requires forall e <- es :: key !in e.keyVictims
    ensures var end := Play(p, Key(key), w, es); key in end.ctl.keys && end.ctl.keys[key].day >= w.ctl.keys[key].day
    decreases |es|
  {
    hide Core, Tally;
    if es != [] {
      DayStep(p, key, w.ctl, es[0].op, es[0].now);
      DayMovesForward(p, key, Next(p, Key(key), w, es[0]), es[1..]);
    }
  }

  lemma DayStep(p: Policy, key: string, c: Ctl, op: Op, now: nat)
    requires key in c.keys
    ensures var c' := Core(p, c, op, now).ctl; key in c'.keys && c'.keys[key].day >= c.keys[key].day
  {
    hide RunLimit, KeyLimit, RunTrips, KeyTrips, RecordRun, StandingOf;
    if op.Admit? && !c.killed {
      var c1 := Touch(c, op.run, op.key, now);
      assert key in c1.keys && c1.keys[key].day >= c.keys[key].day;
    }
  }
}

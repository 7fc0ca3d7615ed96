/**
  What a run's and a key's record says, told from the outside: from the calls of the controller, what
  they were answered, the stops they handed out and the entries eviction dropped. The records of
  the controller are proved to be these accounts on every trace, and what it answers next to
  follow from them.
 */
module Accounts {
  import opened Money
  import opened Control
  import Ceilings

  // The controller after a trace.

  function After(p: Policy, es: seq<Event>): Ctl {
    if es == [] then EMPTY else Apply(p, After(p, es[..|es| - 1]), es[|es| - 1])
  }

  ghost predicate AllLegal(p: Policy, es: seq<Event>) {
    es == [] || (AllLegal(p, es[..|es| - 1]) && Legal(p, After(p, es[..|es| - 1]), es[|es| - 1]))
  }

  /** The kill switch as last set. */
  predicate Killed(es: seq<Event>) {
    es != [] && var e := es[|es| - 1]; if e.op.SetKilled? then e.op.on else Killed(es[..|es| - 1])
  }

  lemma {:induction false} KilledAsSet(p: Policy, es: seq<Event>)
    ensures After(p, es).killed == Killed(es)
  {
    if es != [] {
      KilledAsSet(p, es[..|es| - 1]);
      OnlySwitchKills(p, After(p, es[..|es| - 1]), es[|es| - 1]);
    }
  }

  lemma OnlySwitchKills(p: Policy, c: Ctl, e: Event)
    ensures Apply(p, c, e).killed == if e.op.SetKilled? then e.op.on else c.killed
  {
    hide StandingOf, Touch, Judge, Reserve, Why, RecordKey, RecordRun, KeyAt;
  }

  // A run.

  /** A run's record, if it has one; a run without one stands like a new one. */
  datatype RunAccount = RunAccount(known: bool, st: RunState)

  const NO_RUN := RunAccount(false, RunState(0, 0, 0.0, 0.0, false, NoReason, 0))

  function Fewer(n: nat): nat {
    if n == 0 then 0 else n - 1
  }

  /** A call, or a cap the caller sets, touches a run: it is known, and last seen now. */
  predicate TouchesRun(killed: bool, op: Op, r: string) {
    match op
    case Admit(run, _, _) => run == r && !killed
    case Record(run, _, _, _) => run == r
    case SetRunCap(run, cap) => run == r && cap > 0.0
    case _ => false
  }

  /** The reason of the last of these stops that is run r's, or of none. */
  function StopReason(stops: seq<StopEvent>, r: string): Reason {
    if stops == [] then NoReason
    else if stops[|stops| - 1].run == r then stops[|stops| - 1].reason
    else StopReason(stops[..|stops| - 1], r)
  }

  function RunTold(r: string, killed: bool, a: RunAccount, e: Event, ok: bool, stops: seq<StopEvent>): RunAccount {
    var st := if TouchesRun(killed, e.op, r) then a.st.(lastSeen := e.now) else a.st;
    var told := match e.op
      case Admit(run, _, _) => if run == r && ok then st.(inflight := st.inflight + 1) else st
      case Record(run, _, cost, _) =>
        if run == r then st.(calls := st.calls + 1, spend := st.spend + cost, inflight := Fewer(st.inflight)) else st
      case Release(run, _) => if run == r then st.(inflight := Fewer(st.inflight)) else st
      case SetRunCap(run, cap) => if run == r && cap > 0.0 then st.(cap := cap) else st
      case ResumeRun(run) =>
        if run == r && ok then RunState(0, 0, 0.0, st.cap, false, NoReason, st.lastSeen) else st
      case _ => st;
    var why := StopReason(stops, r);
    if r in e.runVictims then NO_RUN
    else RunAccount(a.known || TouchesRun(killed, e.op, r) || e.op == NoteRun(r),
                    if why == NoReason then told else told.(paused := true, reason := why))
  }

  function RunAccountOf(p: Policy, es: seq<Event>, r: string): RunAccount {
    if es == [] then NO_RUN
    else
      var before, e := es[..|es| - 1], es[|es| - 1];
      RunTold(r, Killed(before), RunAccountOf(p, before, r), e, ReplyTo(p, After(p, before), e).ok,
              NewStops(p, After(p, before), e))
  }

  predicate RunAs(c: Ctl, r: string, a: RunAccount) {
    (r in c.runs <==> a.known) && RunOf(c, r) == a.st
  }

  lemma StopReasons(a: StopEvent, b: StopEvent, r: string)
    ensures StopReason([], r) == NoReason
    ensures StopReason([a], r) == if a.run == r then a.reason else NoReason
    ensures StopReason([a, b], r) == if b.run == r then b.reason else if a.run == r then a.reason else NoReason
  {
    assert [a, b][..1] == [a];
  }

  /** The stops handed out are what an operation adds. */
  lemma StopsHanded(p: Policy, c: Ctl, e: Event, more: seq<StopEvent>)
    requires Core(p, c, e.op, e.now).ctl.stops == c.stops + more
    ensures NewStops(p, c, e) == more
  {
    hide Core;
  }

  /** A run's record with the reason of a stop, if there was one. */
  function Stopped(st: RunState, why: Reason): RunState {
    if why == NoReason then st else st.(paused := true, reason := why)
  }

  /** From c to c', run r is stopped if there is a stop of it, and is otherwise as it was. */
  ghost predicate StopsRunAs(c: Ctl, c': Ctl, more: seq<StopEvent>, r: string) {
    && c'.stops == c.stops + more && (r in c'.runs <==> r in c.runs)
    && RunOf(c', r) == Stopped(RunOf(c, r), StopReason(more, r))
  }

  lemma StopRunTold(p: Policy, c: Ctl, run: string, reason: Reason, now: nat, r: string) returns (more: seq<StopEvent>)
    requires r != "" && (reason == NoReason || run in c.runs)
    ensures StopsRunAs(c, StopRun(p, c, run, reason, now), more, r)
  {
    var st := RunOf(c, run);
    var ev := StopEvent(run, "", reason, st.calls, st.spend, now, p.shadow, false);
    more := if reason == NoReason then [] else [ev];
    StopReasons(ev, ev, r);
  }

  lemma StopKeyTold(p: Policy, c: Ctl, key: string, reason: Reason, now: nat, r: string) returns (more: seq<StopEvent>)
    requires r != "" && key in c.keys
    ensures StopsRunAs(c, StopKey(p, c, key, reason, now), more, r) && StopReason(more, r) == NoReason && |more| <= 1
  {
    more := StopKey(p, c, key, reason, now).stops[|c.stops|..];
    if more != [] {
      StopReasons(more[0], more[0], r);
    }
  }

  lemma JudgeRunTold(p: Policy, c: Ctl, run: string, key: string, standing: Standing, now: nat, r: string)
    returns (more: seq<StopEvent>)
    requires r != "" && (key != "" ==> key in c.keys) && (run != "" ==> run in c.runs)
    requires (standing == KeyAtCap ==> key != "") && (standing == RunAtCap ==> run != "")
    ensures StopsRunAs(c, Judge(p, c, run, key, standing, now), more, r)
  {
    hide StopRun, StopKey, StopsRunAs;
    match standing {
      case KeyAtCap => more := StopKeyTold(p, c, key, KeyLimit(p, key, c.keys[key]), now, r);
      case RunAtCap => more := StopRunTold(p, c, run, RunLimit(p, RunOf(c, run)), now, r);
      case _ => more := StopRunTold(p, c, run, NoReason, now, r); assert StopRun(p, c, run, NoReason, now) == c;
    }
  }

  lemma TouchRunTold(c: Ctl, run: string, key: string, now: nat, r: string)
    requires r != ""
    ensures
      var c1 := Touch(c, run, key, now);
      && (r in c1.runs <==> r in c.runs || run == r)
      && RunOf(c1, r) == if run == r then RunOf(c, r).(lastSeen := now) else RunOf(c, r)
  {
  }

  lemma ReserveRunTold(c: Ctl, run: string, key: string, r: string)
    requires r != "" && (key != "" ==> key in c.keys) && (run != "" ==> run in c.runs)
    ensures
      var c1, st := Reserve(c, run, key), RunOf(c, r);
      && (r in c1.runs <==> r in c.runs)
      && RunOf(c1, r) == if run == r then st.(inflight := st.inflight + 1) else st
  {
  }

  lemma AdmitRunTold(p: Policy, c: Ctl, r: string, e: Event)
    requires r != "" && e.op.Admit?
    ensures
      var c', st := Core(p, c, e.op, e.now).ctl, RunOf(c, r);
      var touched := if e.op.run == r && !c.killed then st.(lastSeen := e.now) else st;
      var told := if e.op.run == r && ReplyTo(p, c, e).ok then touched.(inflight := touched.inflight + 1) else touched;
      && (r in c'.runs <==> r in c.runs || (e.op.run == r && !c.killed))
      && RunOf(c', r) == Stopped(told, StopReason(NewStops(p, c, e), r))
  {
    hide Touch, Judge, Reserve, StandingOf, Why, NewStops, StopReason;
    var run, key := e.op.run, e.op.key;
    if c.killed {
      StopsHanded(p, c, e, []);
      StopReasons(StopEvent("", "", NoReason, 0, 0.0, 0, false, false), StopEvent("", "", NoReason, 0, 0.0, 0, false, false), r);
    } else {
      var c1 := Touch(c, run, key, e.now);
      var standing := StandingOf(p, c1, run, key, e.op.bypass);
      TouchRunTold(c, run, key, e.now, r);
      if run != "" {
        TouchRunTold(c, run, key, e.now, run);
      }
      var more := JudgeRunTold(p, c1, run, key, standing, e.now, r);
      var judged := Judge(p, c1, run, key, standing, e.now);
      if run != "" {
        var _ := JudgeRunTold(p, c1, run, key, standing, e.now, run);
      }
      ReserveRunTold(judged, run, key, r);
      StopsHanded(p, c, e, more);
    }
  }

  /** Stops of keys come to nothing for a run. */
  lemma {:induction false} KeysBefore(a: seq<StopEvent>, b: seq<StopEvent>, r: string)
    requires forall ev <- a :: ev.run != r
    ensures StopReason(a + b, r) == StopReason(b, r)
  {
    if b == [] {
      assert a + b == a;
      NoneOf(a, r);
    } else {
      assert (a + b)[..|a + b| - 1] == a + b[..|b| - 1];
      KeysBefore(a, b[..|b| - 1], r);
    }
  }

  lemma {:induction false} NoneOf(a: seq<StopEvent>, r: string)
    requires forall ev <- a :: ev.run != r
    ensures StopReason(a, r) == NoReason
  {
    if a != [] {
      NoneOf(a[..|a| - 1], r);
    }
  }

  lemma RecordRunOnly(p: Policy, c: Ctl, run: string, cost: real, loop: bool, now: nat, r: string)
    returns (more: seq<StopEvent>)
    requires r != ""
    ensures
      var c', st := RecordRun(p, c, run, cost, loop, now), RunOf(c, r);
      var charged := st.(calls := st.calls + 1, spend := st.spend + cost, inflight := Fewer(st.inflight), lastSeen := now);
      && c'.stops == c.stops + more && (r in c'.runs <==> r in c.runs || run == r)
      && RunOf(c', r) == Stopped(if run == r then charged else st, StopReason(more, r))
  {
    hide RunTrips, StopRun;
    var st1 := ChargedRun(RunOf(c, run), cost, now);
    more := StopRunTold(p, SetRun(c, run, st1), run, if st1.paused then NoReason else RunTrips(p, st1, loop), now, r);
  }

  lemma RecordKeyOnly(p: Policy, c: Ctl, key: string, cost: real, now: nat) returns (more: seq<StopEvent>)
    ensures RecordKey(p, c, key, cost, now).stops == c.stops + more
    ensures forall ev <- more :: ev.run == ""
  {
    hide KeyAt, KeyTrips;
    more := RecordKey(p, c, key, cost, now).stops[|c.stops|..];
  }

  lemma RecordRunTold(p: Policy, c: Ctl, r: string, e: Event)
    requires r != "" && e.op.Record?
    ensures
      var c', st := Core(p, c, e.op, e.now).ctl, RunOf(c, r);
      var charged := st.(calls := st.calls + 1, spend := st.spend + e.op.cost, inflight := Fewer(st.inflight), lastSeen := e.now);
      && (r in c'.runs <==> r in c.runs || e.op.run == r)
      && RunOf(c', r) == Stopped(if e.op.run == r then charged else st, StopReason(NewStops(p, c, e), r))
  {
    hide RecordKey, RecordRun, NewStops, StopReason;
    var run, key := e.op.run, e.op.key;
    var keyStops: seq<StopEvent>, runStops: seq<StopEvent> := [], [];
    var c1 := if key == "" then c else RecordKey(p, c, key, e.op.cost, e.now);
    if key != "" {
      keyStops := RecordKeyOnly(p, c, key, e.op.cost, e.now);
    }
    if run != "" {
      runStops := RecordRunOnly(p, c1, run, e.op.cost, e.op.loop, e.now, r);
    } else {
      NoneOf([], r);
    }
    assert Core(p, c, e.op, e.now).ctl.stops == c.stops + (keyStops + runStops);
    StopsHanded(p, c, e, keyStops + runStops);
    KeysBefore(keyStops, runStops, r);
  }

  lemma OtherRunTold(p: Policy, c: Ctl, r: string, e: Event)
    requires r != "" && !e.op.Admit? && !e.op.Record?
    ensures NewStops(p, c, e) == []
    ensures
      var c', st := Core(p, c, e.op, e.now).ctl, RunOf(c, r);
      match e.op
      case Release(run, _) => RunOf(c', r) == (if run == r then st.(inflight := Fewer(st.inflight)) else st)
      case SetRunCap(run, cap) => RunOf(c', r) == (if run == r && cap > 0.0 then st.(cap := cap, lastSeen := e.now) else st)
      case ResumeRun(run) =>
        RunOf(c', r) == (if run == r && ReplyTo(p, c, e).ok then RunState(0, 0, 0.0, st.cap, false, NoReason, st.lastSeen)
                         else st)
      case _ => RunOf(c', r) == st
    ensures
      var c' := Core(p, c, e.op, e.now).ctl;
      r in c'.runs <==> r in c.runs || e.op == NoteRun(r) || (e.op.SetRunCap? && e.op.run == r && e.op.cap > 0.0)
  {
    hide KeyAt;
  }

  lemma RunStep(p: Policy, c: Ctl, r: string, a: RunAccount, e: Event)
    requires r != "" && RunAs(c, r, a)
    ensures RunAs(Apply(p, c, e), r, RunTold(r, c.killed, a, e, ReplyTo(p, c, e).ok, NewStops(p, c, e)))
  {
    hide Core, NewStops, StopReason, ReplyTo;
    match e.op {
      case Admit(_, _, _) => AdmitRunTold(p, c, r, e);
      case Record(_, _, _, _) => RecordRunTold(p, c, r, e);
      case _ =>
        OtherRunTold(p, c, r, e);
        NoneOf([], r);
    }
  }

  /** On every trace, a run's record is its account. */
  lemma {:induction false} RunsAreAsTold(p: Policy, es: seq<Event>, r: string)
    requires r != ""
    ensures RunAs(After(p, es), r, RunAccountOf(p, es, r))
  {
    hide Apply, RunTold, RunAs, NewStops, ReplyTo;
    if es == [] {
      assert RunAs(EMPTY, r, NO_RUN) by { NothingTold(r); }
    } else {
      var before := es[..|es| - 1];
      RunsAreAsTold(p, before, r);
      KilledAsSet(p, before);
      RunStep(p, After(p, before), r, RunAccountOf(p, before, r), es[|es| - 1]);
    }
  }

  lemma NothingTold(r: string)
    ensures RunAs(EMPTY, r, NO_RUN)
  {
  }

  // A key.

  datatype KeyAccount = KeyAccount(known: bool, ks: KeyState)

  const NO_KEY := KeyAccount(false, KeyState(0, 0, 0.0, 0, 0.0, 0, false, NoReason, false, 0))

  /** A call, or a note about it, touches a key. */
  predicate TouchesKey(killed: bool, op: Op, k: string) {
    match op
    case Admit(_, key, _) => key == k && !killed
    case Record(_, key, _, _) => key == k
    case NoteKey(key) => key == k
    case _ => false
  }

  /**
    A key touched now: a new one begins today; with a later UTC day the day's tallies, the
    reservations and a pause for the day are gone; and it is last seen now.
   */
  function TouchedNow(a: KeyAccount, now: nat): KeyState {
    var today, ks := now / DAY, a.ks;
    if !a.known then KeyState(today, 0, 0.0, 0, 0.0, 0, false, NoReason, false, now)
    else if ks.day < today then
      KeyState(today, 0, 0.0, ks.lifeCalls, ks.lifeSpend, 0, ks.paused && !ks.dayPause,
               if ks.dayPause then NoReason else ks.reason, false, now)
    else ks.(lastSeen := now)
  }

  function KeyStopReason(stops: seq<StopEvent>, k: string): Reason {
    if stops == [] then NoReason
    else if stops[|stops| - 1].key == k then stops[|stops| - 1].reason
    else KeyStopReason(stops[..|stops| - 1], k)
  }

  function StoppedKey(ks: KeyState, why: Reason): KeyState {
    if why == NoReason then ks else ks.(paused := true, reason := why, dayPause := why.KeyDayCap?)
  }

  /** A key let on: its day begins anew, and its totals too unless the pause was for the day. */
  function LetOn(ks: KeyState): KeyState {
    var calls, spend := if ks.dayPause then ks.lifeCalls else 0, if ks.dayPause then ks.lifeSpend else 0.0;
    KeyState(ks.day, 0, 0.0, calls, spend, 0, false, NoReason, false, ks.lastSeen)
  }

  function KeyTold(k: string, killed: bool, a: KeyAccount, e: Event, ok: bool, stops: seq<StopEvent>): KeyAccount {
    var ks := if TouchesKey(killed, e.op, k) then TouchedNow(a, e.now) else a.ks;
    var told := match e.op
      case Admit(_, key, _) => if key == k && ok then ks.(inflight := ks.inflight + 1) else ks
      case Record(_, key, cost, _) =>
        if key == k then
          KeyState(ks.day, ks.dayCalls + 1, ks.daySpend + cost, ks.lifeCalls + 1, ks.lifeSpend + cost, Fewer(ks.inflight),
                   ks.paused, ks.reason, ks.dayPause, ks.lastSeen)
        else ks
      case Release(_, key) => if key == k then ks.(inflight := Fewer(ks.inflight)) else ks
      case ResumeKey(key) => if key == k && ok then LetOn(ks) else ks
      case _ => ks;
    if k in e.keyVictims then NO_KEY
    else KeyAccount(a.known || TouchesKey(killed, e.op, k), StoppedKey(told, KeyStopReason(stops, k)))
  }

  function KeyAccountOf(p: Policy, es: seq<Event>, k: string): KeyAccount {
    if es == [] then NO_KEY
    else
      var before, e := es[..|es| - 1], es[|es| - 1];
      KeyTold(k, Killed(before), KeyAccountOf(p, before, k), e, ReplyTo(p, After(p, before), e).ok,
              NewStops(p, After(p, before), e))
  }

  function KeyOf(c: Ctl, k: string): KeyState {
    if k in c.keys then c.keys[k] else NO_KEY.ks
  }

  predicate KeyAs(c: Ctl, k: string, a: KeyAccount) {
    (k in c.keys <==> a.known) && KeyOf(c, k) == a.ks
  }

  /** Stops of runs come to nothing for a key. */
  lemma {:induction false} RunsAfter(a: seq<StopEvent>, b: seq<StopEvent>, k: string)
    requires forall ev <- b :: ev.key != k
    ensures KeyStopReason(a + b, k) == KeyStopReason(a, k)
  {
    if b == [] {
      assert a + b == a;
    } else {
      assert (a + b)[..|a + b| - 1] == a + b[..|b| - 1];
      RunsAfter(a, b[..|b| - 1], k);
    }
  }

  lemma NoKeyStop(a: seq<StopEvent>, k: string)
    requires forall ev <- a :: ev.key != k
    ensures KeyStopReason(a, k) == NoReason
  {
    RunsAfter([], a, k);
    assert [] + a == a;
  }

  lemma OneKeyStop(ev: StopEvent, k: string)
    ensures KeyStopReason([ev], k) == if ev.key == k then ev.reason else NoReason
  {
  }

  /** From c to c', key k is stopped if there is a stop of it, and is otherwise as it was. */
  ghost predicate StopsKeyAs(c: Ctl, c': Ctl, more: seq<StopEvent>, k: string) {
    && c'.stops == c.stops + more && (k in c'.keys <==> k in c.keys)
    && KeyOf(c', k) == StoppedKey(KeyOf(c, k), KeyStopReason(more, k))
  }

  lemma KeyStopTold(p: Policy, c: Ctl, key: string, reason: Reason, now: nat, k: string) returns (more: seq<StopEvent>)
    requires k != "" && key in c.keys
    ensures StopsKeyAs(c, StopKey(p, c, key, reason, now), more, k)
  {
    more := StopKey(p, c, key, reason, now).stops[|c.stops|..];
    if reason == NoReason {
      NoKeyStop(more, k);
    } else {
      OneKeyStop(more[0], k);
    }
  }

  lemma RunStopTold(p: Policy, c: Ctl, run: string, reason: Reason, now: nat, k: string) returns (more: seq<StopEvent>)
    requires k != ""
    ensures StopsKeyAs(c, StopRun(p, c, run, reason, now), more, k) && forall ev <- more :: ev.key == ""
  {
    more := StopRun(p, c, run, reason, now).stops[|c.stops|..];
    NoKeyStop(more, k);
  }

  lemma JudgeKeyTold(p: Policy, c: Ctl, run: string, key: string, standing: Standing, now: nat, k: string)
    returns (more: seq<StopEvent>)
    requires k != "" && (key != "" ==> key in c.keys) && (standing == KeyAtCap ==> key != "")
    ensures StopsKeyAs(c, Judge(p, c, run, key, standing, now), more, k)
  {
    hide StopRun, StopKey, StopsKeyAs;
    match standing {
      case KeyAtCap => more := KeyStopTold(p, c, key, KeyLimit(p, key, c.keys[key]), now, k);
      case RunAtCap => more := RunStopTold(p, c, run, RunLimit(p, RunOf(c, run)), now, k);
      case _ => more := RunStopTold(p, c, run, NoReason, now, k); assert StopRun(p, c, run, NoReason, now) == c;
    }
  }

  lemma TouchedAsTold(c: Ctl, k: string, now: nat)
    ensures KeyAt(c, k, now) == TouchedNow(KeyAccount(k in c.keys, KeyOf(c, k)), now)
  {
  }

  lemma TouchKeyTold(c: Ctl, run: string, key: string, now: nat, k: string)
    requires k != ""
    ensures
      var c1 := Touch(c, run, key, now);
      && (k in c1.keys <==> k in c.keys || key == k)
      && KeyOf(c1, k) == if key == k then TouchedNow(KeyAccount(k in c.keys, KeyOf(c, k)), now) else KeyOf(c, k)
  {
    hide KeyAt, TouchedNow;
    TouchedAsTold(c, k, now);
  }

  lemma ReserveKeyTold(c: Ctl, run: string, key: string, k: string)
    requires k != "" && (key != "" ==> key in c.keys)
    ensures
      var c1, ks := Reserve(c, run, key), KeyOf(c, k);
      && (k in c1.keys <==> k in c.keys)
      && KeyOf(c1, k) == if key == k then ks.(inflight := ks.inflight + 1) else ks
  {
  }

  lemma AdmitKeyTold(p: Policy, c: Ctl, k: string, e: Event)
    requires k != "" && e.op.Admit?
    ensures
      var c', a := Core(p, c, e.op, e.now).ctl, KeyAccount(k in c.keys, KeyOf(c, k));
      var touched := if e.op.key == k && !c.killed then TouchedNow(a, e.now) else a.ks;
      var told := if e.op.key == k && ReplyTo(p, c, e).ok then touched.(inflight := touched.inflight + 1) else touched;
      && (k in c'.keys <==> k in c.keys || (e.op.key == k && !c.killed))
      && KeyOf(c', k) == StoppedKey(told, KeyStopReason(NewStops(p, c, e), k))
  {
    hide Touch, Judge, Reserve, StandingOf, Why, NewStops, KeyStopReason, TouchedNow;
    var run, key := e.op.run, e.op.key;
    if c.killed {
      StopsHanded(p, c, e, []);
      NoKeyStop([], k);
    } else {
      var c1 := Touch(c, run, key, e.now);
      var standing := StandingOf(p, c1, run, key, e.op.bypass);
      TouchKeyTold(c, run, key, e.now, k);
      var more := JudgeKeyTold(p, c1, run, key, standing, e.now, k);
      ReserveKeyTold(Judge(p, c1, run, key, standing, e.now), run, key, k);
      StopsHanded(p, c, e, more);
    }
  }

  lemma KeyRecordTold(p: Policy, c: Ctl, key: string, cost: real, now: nat, k: string) returns (more: seq<StopEvent>)
    requires k != ""
    ensures
      var c', a := RecordKey(p, c, key, cost, now), KeyAccount(k in c.keys, KeyOf(c, k));
      var ks := TouchedNow(a, now);
      var charged := KeyState(ks.day, ks.dayCalls + 1, ks.daySpend + cost, ks.lifeCalls + 1, ks.lifeSpend + cost,
                              Fewer(ks.inflight), ks.paused, ks.reason, ks.dayPause, ks.lastSeen);
      && c'.stops == c.stops + more && (k in c'.keys <==> k in c.keys || key == k)
      && KeyOf(c', k) == StoppedKey(if key == k then charged else a.ks, KeyStopReason(more, k))
  {
    hide KeyTrips, StopKey, KeyAt, TouchedNow;
    TouchedAsTold(c, k, now);
    var ks1 := ChargedKey(KeyAt(c, key, now), cost);
    more := KeyStopTold(p, SetKey(c, key, ks1), key, if ks1.paused then NoReason else KeyTrips(p, key, ks1), now, k);
  }

  lemma RunRecordTold(p: Policy, c: Ctl, run: string, cost: real, loop: bool, now: nat) returns (more: seq<StopEvent>)
    ensures RecordRun(p, c, run, cost, loop, now).stops == c.stops + more && forall ev <- more :: ev.key == ""
  {
    hide RunTrips;
    more := RecordRun(p, c, run, cost, loop, now).stops[|c.stops|..];
  }

  lemma RecordKeyTold(p: Policy, c: Ctl, k: string, e: Event)
    requires k != "" && e.op.Record?
    ensures
      var c', a := Core(p, c, e.op, e.now).ctl, KeyAccount(k in c.keys, KeyOf(c, k));
      var ks, cost := TouchedNow(a, e.now), e.op.cost;
      var charged := KeyState(ks.day, ks.dayCalls + 1, ks.daySpend + cost, ks.lifeCalls + 1, ks.lifeSpend + cost,
                              Fewer(ks.inflight), ks.paused, ks.reason, ks.dayPause, ks.lastSeen);
      && (k in c'.keys <==> k in c.keys || e.op.key == k)
      && KeyOf(c', k) == StoppedKey(if e.op.key == k then charged else a.ks, KeyStopReason(NewStops(p, c, e), k))
  {
    hide RecordKey, RecordRun, NewStops, KeyStopReason, TouchedNow;
    var run, key := e.op.run, e.op.key;
    var keyStops: seq<StopEvent>, runStops: seq<StopEvent> := [], [];
    var c1 := if key == "" then c else RecordKey(p, c, key, e.op.cost, e.now);
    if key != "" {
      keyStops := KeyRecordTold(p, c, key, e.op.cost, e.now, k);
    } else {
      NoKeyStop([], k);
    }
    if run != "" {
      runStops := RunRecordTold(p, c1, run, e.op.cost, e.op.loop, e.now);
    }
    assert Core(p, c, e.op, e.now).ctl.stops == c.stops + (keyStops + runStops);
    StopsHanded(p, c, e, keyStops + runStops);
    RunsAfter(keyStops, runStops, k);
  }

  lemma OtherKeyTold(p: Policy, c: Ctl, k: string, e: Event)
    requires k != "" && !e.op.Admit? && !e.op.Record?
    ensures NewStops(p, c, e) == []
    ensures
      var c', a := Core(p, c, e.op, e.now).ctl, KeyAccount(k in c.keys, KeyOf(c, k));
      KeyOf(c', k) == match e.op
      case Release(_, key) => if key == k then a.ks.(inflight := Fewer(a.ks.inflight)) else a.ks
      case ResumeKey(key) => if key == k && ReplyTo(p, c, e).ok then LetOn(a.ks) else a.ks
      case NoteKey(key) => if key == k then TouchedNow(a, e.now) else a.ks
      case _ => a.ks
    ensures k in Core(p, c, e.op, e.now).ctl.keys <==> k in c.keys || e.op == NoteKey(k)
  {
    hide KeyAt, TouchedNow;
    TouchedAsTold(c, k, e.now);
  }

  lemma KeyStep(p: Policy, c: Ctl, k: string, a: KeyAccount, e: Event)
    requires k != "" && KeyAs(c, k, a)
    ensures KeyAs(Apply(p, c, e), k, KeyTold(k, c.killed, a, e, ReplyTo(p, c, e).ok, NewStops(p, c, e)))
  {
    hide Core, NewStops, KeyStopReason, ReplyTo, TouchedNow, LetOn;
    match e.op {
      case Admit(_, _, _) => AdmitKeyTold(p, c, k, e);
      case Record(_, _, _, _) => RecordKeyTold(p, c, k, e);
      case _ =>
        OtherKeyTold(p, c, k, e);
        NoKeyStop([], k);
    }
  }

  /** On every trace, a key's record is its account. */
  lemma {:induction false} KeysAreAsTold(p: Policy, es: seq<Event>, k: string)
    requires k != ""
    ensures KeyAs(After(p, es), k, KeyAccountOf(p, es, k))
  {
    hide Apply, KeyTold, KeyAs, NewStops, ReplyTo;
    if es == [] {
      assert KeyAs(EMPTY, k, NO_KEY) by { NoKeyTold(k); }
    } else {
      var before := es[..|es| - 1];
      KeysAreAsTold(p, before, k);
      KilledAsSet(p, before);
      KeyStep(p, After(p, before), k, KeyAccountOf(p, before, k), es[|es| - 1]);
    }
  }

  lemma NoKeyTold(k: string)
    ensures KeyAs(EMPTY, k, NO_KEY)
  {
  }

  // What follows from the accounts.

  /**
    On every trace, with nothing assumed of what calls cost, an admission is answered as the accounts
    of its run and key object to it, and a stop is handed out with their figures.
   */
  lemma {:induction false} AnsweredFromAccounts(
    p: Policy, es: seq<Event>, run: string, key: string, bypass: bool, now: nat)
    ensures
      var o := AdmitCall(p, After(p, es), run, key, bypass, now);
      var st, ks := RunAccountOf(p, es, run).st, TouchedNow(KeyAccountOf(p, es, key), now);
      var (held, reason) := Ceilings.Objection(p, run, st, key, ks);
      && o.reply == (if Killed(es) then Reply(false, KillSwitch)
                     else if bypass || !held then Reply(true, NoReason)
                     else Reply(p.shadow, reason))
      && o.ctl.stops == After(p, es).stops
                        + (if Killed(es) || bypass then [] else Ceilings.StopOf(p, run, st, key, ks, now))
  {
    hide After, AdmitCall, RunAccountOf, KeyAccountOf, TouchedNow, KeyAt, Ceilings.Reaches, Ceilings.EitherCap, Ceilings.LowerCap;
    var c := After(p, es);
    KilledAsSet(p, es);
    Ceilings.AdmissionAnswered(p, c, run, key, bypass, now);
    if run != "" {
      RunsAreAsTold(p, es, run);
    }
    if key != "" {
      KeysAreAsTold(p, es, key);
      TouchedAsTold(c, key, now);
    }
  }

  /** A settlement stops its key and its run as their accounts, with it, come up to a cap. */
  lemma {:induction false} StoppedFromAccounts(
    p: Policy, es: seq<Event>, run: string, key: string, cost: real, loop: bool, now: nat)
    ensures
      var st := Ceilings.SettledRun(RunAccountOf(p, es, run).st, cost);
      var ks := Ceilings.SettledKey(TouchedNow(KeyAccountOf(p, es, key), now), cost);
      var (keyTrips, why) := Ceilings.KeyTrip(p, key, ks);
      var (runTrips, reason) := Ceilings.RunTrip(p, st, loop);
      Core(p, After(p, es), Record(run, key, cost, loop), now).ctl.stops
      == After(p, es).stops
         + (if key != "" && !ks.paused && keyTrips then [Ceilings.KeyStop(p, key, why, ks, now)] else [])
         + (if run != "" && !st.paused && runTrips then [Ceilings.RunStop(p, run, reason, st.calls, st.spend, now)] else [])
  {
    hide After, Core, RunAccountOf, KeyAccountOf, TouchedNow, KeyAt, Ceilings.KeyTrip, Ceilings.RunTrip;
    var c := After(p, es);
    Ceilings.SettlementStops(p, c, run, key, cost, loop, now);
    if run != "" {
      RunsAreAsTold(p, es, run);
    }
    if key != "" {
      KeysAreAsTold(p, es, key);
      TouchedAsTold(c, key, now);
    }
  }

  /** An operator is told a run or key was found exactly when it is known and paused. */
  lemma {:induction false} ResumedFromAccounts(p: Policy, es: seq<Event>, id: string, now: nat)
    requires id != ""
    ensures Core(p, After(p, es), ResumeRun(id), now).reply.ok
       <==> RunAccountOf(p, es, id).known && RunAccountOf(p, es, id).st.paused
    ensures Core(p, After(p, es), ResumeKey(id), now).reply.ok
       <==> KeyAccountOf(p, es, id).known && KeyAccountOf(p, es, id).ks.paused
  {
    hide After, RunAccountOf, KeyAccountOf;
    RunsAreAsTold(p, es, id);
    KeysAreAsTold(p, es, id);
  }

  // Eviction, by when runs and keys were last touched.

  /** The instant of the last event that touched run r since it was last dropped, from the events alone. */
  function LastTouch(es: seq<Event>, r: string): nat {
    if es == [] then 0
    else
      var before, e := es[..|es| - 1], es[|es| - 1];
      if r in e.runVictims then 0
      else if TouchesRun(Killed(before), e.op, r) then e.now
      else LastTouch(before, r)
  }

  function LastKeyTouch(es: seq<Event>, k: string): nat {
    if es == [] then 0
    else
      var before, e := es[..|es| - 1], es[|es| - 1];
      if k in e.keyVictims then 0
      else if TouchesKey(Killed(before), e.op, k) then e.now
      else LastKeyTouch(before, k)
  }

  lemma RunSeen(r: string, killed: bool, a: RunAccount, e: Event, ok: bool, stops: seq<StopEvent>)
    ensures RunTold(r, killed, a, e, ok, stops).st.lastSeen
         == if r in e.runVictims then 0 else if TouchesRun(killed, e.op, r) then e.now else a.st.lastSeen
  {
  }

  lemma KeySeen(k: string, killed: bool, a: KeyAccount, e: Event, ok: bool, stops: seq<StopEvent>)
    ensures KeyTold(k, killed, a, e, ok, stops).ks.lastSeen
         == if k in e.keyVictims then 0 else if TouchesKey(killed, e.op, k) then e.now else a.ks.lastSeen
  {
  }

  lemma {:induction false} SeenWhenTouched(p: Policy, es: seq<Event>, id: string)
    ensures RunAccountOf(p, es, id).st.lastSeen == LastTouch(es, id)
    ensures KeyAccountOf(p, es, id).ks.lastSeen == LastKeyTouch(es, id)
  {
    hide ReplyTo, NewStops, RunTold, KeyTold, TouchesRun, TouchesKey, Killed, After;
    if es != [] {
      var before, e := es[..|es| - 1], es[|es| - 1];
      var c := After(p, before);
      SeenWhenTouched(p, before, id);
      RunSeen(id, Killed(before), RunAccountOf(p, before, id), e, ReplyTo(p, c, e).ok, NewStops(p, c, e));
      KeySeen(id, Killed(before), KeyAccountOf(p, before, id), e, ReplyTo(p, c, e).ok, NewStops(p, c, e));
    }
  }

  /** The trace with its last event's eviction still to come. */
  function Undropped(es: seq<Event>, e: Event): seq<Event> {
    es + [e.(runVictims := {}, keyVictims := {})]
  }

  lemma UndroppedIsCore(p: Policy, es: seq<Event>, e: Event)
    ensures After(p, Undropped(es, e)) == Core(p, After(p, es), e.op, e.now).ctl
    ensures After(p, es + [e]) == Evict(After(p, Undropped(es, e)), e.runVictims, e.keyVictims)
  {
    hide Core;
    assert Undropped(es, e)[..|es|] == es && (es + [e])[..|es|] == es;
    var c := Core(p, After(p, es), e.op, e.now).ctl;
    assert c.runs - {} == c.runs && c.keys - {} == c.keys;
  }

  lemma OldestGo(ages: map<string, Age>, max: nat, victims: set<string>, gone: string, kept: string)
    requires LegalEviction(ages, max, victims) && gone in victims
    ensures gone in ages && !ages[gone].paused
    ensures kept in ages && !ages[kept].paused && kept !in victims ==> ages[gone].lastSeen <= ages[kept].lastSeen
  {
  }

  /** No run dropped was paused, or touched later than a run kept that is not paused. */
  lemma {:induction false} RunsLeastRecentGo(p: Policy, es: seq<Event>, e: Event, gone: string, kept: string)
    requires Legal(p, After(p, es), e) && gone != "" && kept != "" && gone in e.runVictims
    ensures var a := RunAccountOf(p, Undropped(es, e), gone); a.known && !a.st.paused
    ensures
      var a := RunAccountOf(p, Undropped(es, e), kept);
      a.known && !a.st.paused && kept !in e.runVictims ==>
        LastTouch(Undropped(es, e), gone) <= LastTouch(Undropped(es, e), kept)
  {
    BoundedBy(p, After(p, es), e);
    UndroppedIsCore(p, es, e);
    OldestGo(RunAges(After(p, Undropped(es, e)).runs), p.maxRuns, e.runVictims, gone, kept);
    hide Core, Apply, After, RunAccountOf, LastTouch, LegalEviction;
    RunsAreAsTold(p, Undropped(es, e), gone);
    RunsAreAsTold(p, Undropped(es, e), kept);
    SeenWhenTouched(p, Undropped(es, e), gone);
    SeenWhenTouched(p, Undropped(es, e), kept);
  }

  lemma {:induction false} KeysLeastRecentGo(p: Policy, es: seq<Event>, e: Event, gone: string, kept: string)
    requires Legal(p, After(p, es), e) && gone != "" && kept != "" && gone in e.keyVictims
    ensures var a := KeyAccountOf(p, Undropped(es, e), gone); a.known && !a.ks.paused
    ensures
      var a := KeyAccountOf(p, Undropped(es, e), kept);
      a.known && !a.ks.paused && kept !in e.keyVictims ==>
        LastKeyTouch(Undropped(es, e), gone) <= LastKeyTouch(Undropped(es, e), kept)
  {
    BoundedBy(p, After(p, es), e);
    UndroppedIsCore(p, es, e);
    OldestGo(KeyAges(After(p, Undropped(es, e)).keys), p.maxRuns, e.keyVictims, gone, kept);
    hide Core, Apply, After, KeyAccountOf, LastKeyTouch, LegalEviction;
    KeysAreAsTold(p, Undropped(es, e), gone);
    KeysAreAsTold(p, Undropped(es, e), kept);
    SeenWhenTouched(p, Undropped(es, e), gone);
    SeenWhenTouched(p, Undropped(es, e), kept);
  }

  /** The calls after which runs, and keys, come down to the limit. */
  predicate BoundsRuns(op: Op) {
    (op.Record? && op.run != "") || (op.SetRunCap? && op.run != "" && op.cap > 0.0)
  }

  predicate BoundsKeys(op: Op, ok: bool) {
    (op.Record? && op.key != "") || (op.NoteKey? && op.key != "") || (op.Admit? && ok && op.key != "")
  }

  lemma DroppedLeaves<T>(m: map<string, T>, victims: set<string>)
    requires victims <= m.Keys
    ensures |m - victims| == |m| - |victims| && (m - victims).Keys == m.Keys - victims
  {
    assert (m - victims).Keys == m.Keys - victims;
    assert |m| == |m.Keys| && |m - victims| == |(m - victims).Keys|;
  }

  /** Eviction is to the limit and no further: short of it only while every entry left is paused. */
  lemma EvictionComesDown(max: nat, ages: map<string, Age>, victims: set<string>)
    requires LegalEviction(ages, max, victims)
    ensures |ages - victims| <= max || forall id :: id in ages && id !in victims ==> ages[id].paused
    ensures victims != {} ==> |ages - victims| >= max
  {
    DroppedLeaves(ages, victims);
    if |ages - victims| > max {
      assert |victims| == |Active(ages)|;
      SameSize(victims, Active(ages));
    }
  }

  lemma SameSize(a: set<string>, b: set<string>)
    requires a <= b && |a| == |b|
    ensures a == b
  {
    assert b == a + (b - a) && |b| == |a| + |b - a|;
  }

  lemma RunsComeDown(runs: map<string, RunState>, max: nat, victims: set<string>)
    requires LegalEviction(RunAges(runs), max, victims)
    ensures |runs - victims| <= max || forall id :: id in runs - victims ==> runs[id].paused
    ensures victims != {} ==> |runs - victims| >= max
  {
    var ages := RunAges(runs);
    EvictionComesDown(max, ages, victims);
    DroppedLeaves(ages, victims);
    DroppedLeaves(runs, victims);
    assert ages.Keys == runs.Keys && |ages| == |ages.Keys| && |runs| == |runs.Keys|;
    hide LegalEviction;
    assert forall id :: id in runs - victims ==> id in ages && ages[id].paused == runs[id].paused;
  }

  lemma KeysComeDown(keys: map<string, KeyState>, max: nat, victims: set<string>)
    requires LegalEviction(KeyAges(keys), max, victims)
    ensures |keys - victims| <= max || forall id :: id in keys - victims ==> keys[id].paused
    ensures victims != {} ==> |keys - victims| >= max
  {
    var ages := KeyAges(keys);
    EvictionComesDown(max, ages, victims);
    DroppedLeaves(ages, victims);
    DroppedLeaves(keys, victims);
    assert ages.Keys == keys.Keys && |ages| == |ages.Keys| && |keys| == |keys.Keys|;
    hide LegalEviction;
    assert forall id :: id in keys - victims ==> id in ages && ages[id].paused == keys[id].paused;
  }

  /** Runs come down to the limit after a call that bounds them, and none is dropped after any other. */
  lemma {:induction false} OnlyTheseDropRuns(p: Policy, es: seq<Event>, e: Event)
    requires Legal(p, After(p, es), e)
    ensures
      var c := After(p, es + [e]);
      && (!BoundsRuns(e.op) ==> e.runVictims == {})
      && (BoundsRuns(e.op) ==> |c.runs| <= p.maxRuns || forall id :: id in c.runs ==> c.runs[id].paused)
      && (e.runVictims != {} ==> |c.runs| >= p.maxRuns)
  {
    BoundedBy(p, After(p, es), e);
    UndroppedIsCore(p, es, e);
    hide Core, Legal, LegalEviction, After, Apply;
    var c := After(p, Undropped(es, e));
    if BoundsRuns(e.op) {
      RunsComeDown(c.runs, p.maxRuns, e.runVictims);
    }
  }

  /** Keys likewise; an admission bounds them when it serves. */
  lemma {:induction false} OnlyTheseDropKeys(p: Policy, es: seq<Event>, e: Event)
    requires Legal(p, After(p, es), e)
    ensures
      var c, bounds := After(p, es + [e]), BoundsKeys(e.op, ReplyTo(p, After(p, es), e).ok);
      && (!bounds ==> e.keyVictims == {})
      && (bounds ==> |c.keys| <= p.maxRuns || forall id :: id in c.keys ==> c.keys[id].paused)
      && (e.keyVictims != {} ==> |c.keys| >= p.maxRuns)
  {
    BoundedBy(p, After(p, es), e);
    UndroppedIsCore(p, es, e);
    hide Core, Legal, LegalEviction, After, Apply, ReplyTo;
    var c := After(p, Undropped(es, e));
    if BoundsKeys(e.op, ReplyTo(p, After(p, es), e).ok) {
      KeysComeDown(c.keys, p.maxRuns, e.keyVictims);
    }
  }

  lemma BoundedBy(p: Policy, c: Ctl, e: Event)
    requires Legal(p, c, e)
    ensures
      var c1 := Core(p, c, e.op, e.now).ctl;
      if BoundsRuns(e.op) then LegalEviction(RunAges(c1.runs), p.maxRuns, e.runVictims) else e.runVictims == {}
    ensures
      var c1 := Core(p, c, e.op, e.now).ctl;
      if BoundsKeys(e.op, ReplyTo(p, c, e).ok) then LegalEviction(KeyAges(c1.keys), p.maxRuns, e.keyVictims)
      else e.keyVictims == {}
  {
    hide LegalEviction, StandingOf, Touch, Judge, Reserve, Why, RecordKey, RecordRun, KeyAt, ReleaseCall;
  }
}

/**
  The rules of the per-process budget controller, on values: what one operation makes of
  the tallies, and what it answers. The class in Controllers.dfy carries them out in place.
  Every operation, with the stop events it hands out, is one atomic step.
 */
module Control {
  import opened Money

  /** Times are nanoseconds since the zero time; a UTC day is a whole number of these. */
  const DAY: nat := 86_400_000_000_000

  function DayOf(now: nat): nat {
    now / DAY
  }

  datatype Policy = Policy(
    maxCalls: int, maxSpend: real, floor: real, pauseOnLoop: bool,
    maxKeyDay: real, maxKey: real, shadow: bool, maxRuns: nat)

  /** Why a call was refused, or a run or key paused. */
  datatype Reason =
    | NoReason
    | KillSwitch
    | CallCap(calls: int)
    | SpendCap(cap: real)
    | SuspectedLoop
    | KeyCap(key: string, cap: real)
    | KeyDayCap(key: string, cap: real)

  datatype RunState = RunState(
    calls: nat, inflight: nat, spend: real, cap: real, paused: bool, reason: Reason, lastSeen: nat)

  datatype KeyState = KeyState(
    day: nat, dayCalls: nat, daySpend: real, lifeCalls: nat, lifeSpend: real, inflight: nat,
    paused: bool, reason: Reason, dayPause: bool, lastSeen: nat)

  datatype StopEvent = StopEvent(
    run: string, key: string, reason: Reason, calls: nat, spend: real, at: nat, shadow: bool, dayPause: bool)

  /** The controller: `stops` is every stop event handed out so far. */
  datatype Ctl = Ctl(
    killed: bool, runs: map<string, RunState>, keys: map<string, KeyState>, stops: seq<StopEvent>)

  datatype Op =
    | Admit(run: string, key: string, bypass: bool)
    | Record(run: string, key: string, cost: real, loop: bool)
    | Release(run: string, key: string)
    | ResumeRun(run: string)
    | ResumeKey(key: string)
    | SetRunCap(run: string, cap: real)
    | SetKilled(on: bool)
    | NoteRun(run: string)
    | NoteKey(key: string)

  datatype Reply = Reply(ok: bool, reason: Reason)

  /** An operation's effect before eviction, and which of the two maps it then bounds. */
  datatype Outcome = Outcome(ctl: Ctl, reply: Reply, boundRuns: bool, boundKeys: bool)

  const FRESH_RUN := RunState(0, 0, 0.0, 0.0, false, NoReason, 0)

  function FreshKey(day: nat): KeyState {
    KeyState(day, 0, 0.0, 0, 0.0, 0, false, NoReason, false, 0)
  }

  function RunOf(c: Ctl, run: string): RunState {
    if run in c.runs then c.runs[run] else FRESH_RUN
  }

  function SetRun(c: Ctl, run: string, st: RunState): Ctl {
    c.(runs := c.runs[run := st])
  }

  function SetKey(c: Ctl, key: string, ks: KeyState): Ctl {
    c.(keys := c.keys[key := ks])
  }

  // Keys: the daily tally rolls over at midnight UTC.

  /** A key's state once it has been looked at today: a later day than its own starts it afresh, an earlier one does nothing. */
  function Roll(ks: KeyState, today: nat): KeyState {
    if today <= ks.day then ks
    else
      var rolled := ks.(day := today, dayCalls := 0, daySpend := 0.0, inflight := 0);
      if ks.dayPause then rolled.(paused := false, reason := NoReason, dayPause := false) else rolled
  }

  function KeyAt(c: Ctl, key: string, now: nat): KeyState {
    Roll(if key in c.keys then c.keys[key] else FreshKey(DayOf(now)), DayOf(now)).(lastSeen := now)
  }

  // Ceilings.

  /** The spend cap a run is held to: the lower of the policy's and its own, of those that are set. */
  function SpendCapOf(p: Policy, st: RunState): real {
    if st.cap > 0.0 && (p.maxSpend == 0.0 || st.cap < p.maxSpend) then st.cap else p.maxSpend
  }

  function RunLimit(p: Policy, st: RunState): Reason {
    var cap := SpendCapOf(p, st);
    if p.maxCalls > 0 && st.calls + st.inflight >= p.maxCalls then CallCap(p.maxCalls)
    else if cap > 0.0 && Micro(Projected(p.floor, st.spend, st.calls, st.inflight)) >= Micro(cap) then SpendCap(cap)
    else NoReason
  }

  /** The same rule for a key; the total cap, which needs a person to lift, comes first. */
  function KeyLimit(p: Policy, key: string, ks: KeyState): Reason {
    var reserved := Reserved(p.floor, ks.lifeSpend, ks.lifeCalls, ks.inflight);
    if p.maxKey > 0.0 && Micro(ks.lifeSpend + reserved) >= Micro(p.maxKey) then KeyCap(key, p.maxKey)
    else if p.maxKeyDay > 0.0 && Micro(ks.daySpend + reserved) >= Micro(p.maxKeyDay) then KeyDayCap(key, p.maxKeyDay)
    else NoReason
  }

  /** What a recorded call trips on its run: settled tallies only. */
  function RunTrips(p: Policy, st: RunState, loop: bool): Reason {
    var cap := SpendCapOf(p, st);
    if p.maxCalls > 0 && st.calls >= p.maxCalls then CallCap(p.maxCalls)
    else if cap > 0.0 && Micro(st.spend) >= Micro(cap) then SpendCap(cap)
    else if loop && p.pauseOnLoop then SuspectedLoop
    else NoReason
  }

  function KeyTrips(p: Policy, key: string, ks: KeyState): Reason {
    if p.maxKey > 0.0 && Micro(ks.lifeSpend) >= Micro(p.maxKey) then KeyCap(key, p.maxKey)
    else if p.maxKeyDay > 0.0 && Micro(ks.daySpend) >= Micro(p.maxKeyDay) then KeyDayCap(key, p.maxKeyDay)
    else NoReason
  }

  // Stops: a pause, and the event that tells of it.

  function StopRun(p: Policy, c: Ctl, run: string, reason: Reason, now: nat): (r: Ctl)
    ensures r.keys == c.keys && r.killed == c.killed && (run in c.runs ==> r.runs.Keys == c.runs.Keys)
    ensures if reason == NoReason then r == c else RunOf(r, run).reason == reason
  {
    var st := RunOf(c, run);
    if reason == NoReason then c
    else
      SetRun(c, run, st.(paused := true, reason := reason))
      .(stops := c.stops + [StopEvent(run, "", reason, st.calls, st.spend, now, p.shadow, false)])
  }

  function StopKey(p: Policy, c: Ctl, key: string, reason: Reason, now: nat): (r: Ctl)
    requires key in c.keys
    ensures r.runs == c.runs && r.killed == c.killed && r.keys.Keys == c.keys.Keys
    ensures if reason == NoReason then r == c else r.keys[key].reason == reason
  {
    var ks := c.keys[key];
    var day := reason.KeyDayCap?;
    if reason == NoReason then c
    else
      SetKey(c, key, ks.(paused := true, reason := reason, dayPause := day))
      .(stops := c.stops + [StopEvent("", key, reason, if day then ks.dayCalls else ks.lifeCalls,
                                      if day then ks.daySpend else ks.lifeSpend, now, p.shadow, day)])
  }

  // Admission.

  datatype Standing = Clear | RunPaused | KeyPaused | KeyAtCap | RunAtCap

  /**
    How a call stands: a run's pause is looked at before its key's, a key's ceiling before
    its run's. A bypass looks at neither ceiling. Empty ids have no standing.
   */
  function StandingOf(p: Policy, c: Ctl, run: string, key: string, bypass: bool): (r: Standing)
    requires key != "" ==> key in c.keys
    ensures r == KeyPaused || r == KeyAtCap ==> key != ""
    ensures r == RunPaused || r == RunAtCap ==> run != ""
  {
    if run != "" && RunOf(c, run).paused then RunPaused
    else if key != "" && c.keys[key].paused then KeyPaused
    else if key != "" && !bypass && KeyLimit(p, key, c.keys[key]) != NoReason then KeyAtCap
    else if run != "" && !bypass && RunLimit(p, RunOf(c, run)) != NoReason then RunAtCap
    else Clear
  }

  function Touch(c: Ctl, run: string, key: string, now: nat): (r: Ctl)
    ensures key != "" ==> key in r.keys
    ensures r.killed == c.killed && r.stops == c.stops
    ensures run == "" ==> r.runs == c.runs
    ensures key == "" ==> r.keys == c.keys
  {
    var c1 := if key == "" then c else SetKey(c, key, KeyAt(c, key, now));
    if run == "" then c1 else SetRun(c1, run, RunOf(c1, run).(lastSeen := now))
  }

  /** An admitted call is counted in flight on its run and on its key. */
  function Reserve(c: Ctl, run: string, key: string): (r: Ctl)
    requires key != "" ==> key in c.keys
    ensures r.killed == c.killed && r.stops == c.stops
    ensures run == "" ==> r.runs == c.runs
    ensures key == "" ==> r.keys == c.keys
  {
    var c1 := if run == "" then c else SetRun(c, run, RunOf(c, run).(inflight := RunOf(c, run).inflight + 1));
    if key == "" then c1 else SetKey(c1, key, c1.keys[key].(inflight := c1.keys[key].inflight + 1))
  }

  /** The state once a ceiling that was met has paused its run or key. */
  function Judge(p: Policy, c: Ctl, run: string, key: string, standing: Standing, now: nat): (r: Ctl)
    requires key != "" ==> key in c.keys
    requires standing == KeyAtCap ==> key != ""
    ensures r.keys.Keys == c.keys.Keys && r.killed == c.killed
    ensures standing != KeyAtCap ==> r.keys == c.keys
    ensures standing != RunAtCap ==> r.runs == c.runs
  {
    match standing
    case KeyAtCap => StopKey(p, c, key, KeyLimit(p, key, c.keys[key]), now)
    case RunAtCap => StopRun(p, c, run, RunLimit(p, RunOf(c, run)), now)
    case _ => c
  }

  /** Why a call that does not stand clear is refused: the reason its run or key is paused for. */
  function Why(c: Ctl, run: string, key: string, standing: Standing): Reason {
    match standing
    case Clear => NoReason
    case RunPaused => RunOf(c, run).reason
    case RunAtCap => RunOf(c, run).reason
    case _ => if key in c.keys then c.keys[key].reason else NoReason
  }

  /** The decision on a call whose run and key have been touched, and its reservation if it is served. */
  function Decide(p: Policy, c: Ctl, run: string, key: string, bypass: bool, now: nat): Outcome
    requires key != "" ==> key in c.keys
  {
    var standing := StandingOf(p, c, run, key, bypass);
    var judged := Judge(p, c, run, key, standing, now);
    var reason := Why(judged, run, key, standing);
    if standing == Clear || bypass || p.shadow then
      Outcome(Reserve(judged, run, key), Reply(true, if bypass then NoReason else reason), false, key != "")
    else
      Outcome(judged, Reply(false, reason), false, false)
  }

  function AdmitCall(p: Policy, c: Ctl, run: string, key: string, bypass: bool, now: nat): Outcome {
    if c.killed then Outcome(c, Reply(false, KillSwitch), false, false)
    else Decide(p, Touch(c, run, key, now), run, key, bypass, now)
  }

  // Settlement.

  function Dec(n: nat): nat {
    if n > 0 then n - 1 else 0
  }

  /** A served call settled: its reservation returned, its cost added. */
  function ChargedKey(ks: KeyState, cost: real): KeyState {
    ks.(inflight := Dec(ks.inflight), dayCalls := ks.dayCalls + 1, lifeCalls := ks.lifeCalls + 1,
        daySpend := ks.daySpend + cost, lifeSpend := ks.lifeSpend + cost)
  }

  function ChargedRun(st: RunState, cost: real, now: nat): RunState {
    st.(inflight := Dec(st.inflight), calls := st.calls + 1, spend := st.spend + cost, lastSeen := now)
  }

  function RecordKey(p: Policy, c: Ctl, key: string, cost: real, now: nat): (r: Ctl)
    ensures r.runs == c.runs && r.killed == c.killed
  {
    var ks1 := ChargedKey(KeyAt(c, key, now), cost);
    StopKey(p, SetKey(c, key, ks1), key, if ks1.paused then NoReason else KeyTrips(p, key, ks1), now)
  }

  function RecordRun(p: Policy, c: Ctl, run: string, cost: real, loop: bool, now: nat): (r: Ctl)
    ensures r.keys == c.keys && r.killed == c.killed
  {
    var st1 := ChargedRun(RunOf(c, run), cost, now);
    StopRun(p, SetRun(c, run, st1), run, if st1.paused then NoReason else RunTrips(p, st1, loop), now)
  }

  function ReleaseCall(c: Ctl, run: string, key: string): Ctl {
    var c1 := if key in c.keys && key != "" then
                SetKey(c, key, c.keys[key].(inflight := Dec(c.keys[key].inflight)))
              else c;
    if run in c.runs && run != "" then SetRun(c1, run, c.runs[run].(inflight := Dec(c.runs[run].inflight))) else c1
  }

  // Operators.

  /** All tallies of the run go with its pause; its own cap stays. */
  function ResumedRun(st: RunState): RunState {
    st.(paused := false, reason := NoReason, calls := 0, spend := 0.0, inflight := 0)
  }

  /** Today's tallies of the key go with its pause, and its totals too if those had paused it. */
  function ResumedKey(ks: KeyState): KeyState {
    var life := if ks.dayPause then ks else ks.(lifeCalls := 0, lifeSpend := 0.0);
    life.(paused := false, reason := NoReason, dayPause := false, dayCalls := 0, daySpend := 0.0, inflight := 0)
  }

  predicate RunIsPaused(c: Ctl, run: string) {
    run in c.runs && c.runs[run].paused
  }

  predicate KeyIsPaused(c: Ctl, key: string) {
    key in c.keys && c.keys[key].paused
  }

  /** One operation, before eviction. */
  function Core(p: Policy, c: Ctl, op: Op, now: nat): Outcome {
    var yes := Reply(true, NoReason);
    match op
    case Admit(run, key, bypass) => AdmitCall(p, c, run, key, bypass, now)
    case Record(run, key, cost, loop) =>
      var c1 := if key == "" then c else RecordKey(p, c, key, cost, now);
      Outcome(if run == "" then c1 else RecordRun(p, c1, run, cost, loop, now), yes, run != "", key != "")
    case Release(run, key) => Outcome(ReleaseCall(c, run, key), yes, false, false)
    case ResumeRun(run) =>
      Outcome(if RunIsPaused(c, run) then SetRun(c, run, ResumedRun(c.runs[run])) else c,
              Reply(RunIsPaused(c, run), NoReason), false, false)
    case ResumeKey(key) =>
      Outcome(if KeyIsPaused(c, key) then SetKey(c, key, ResumedKey(c.keys[key])) else c,
              Reply(KeyIsPaused(c, key), NoReason), false, false)
    case SetRunCap(run, cap) =>
      if run == "" || cap <= 0.0 then Outcome(c, yes, false, false)
      else Outcome(SetRun(c, run, RunOf(c, run).(cap := cap, lastSeen := now)), yes, true, false)
    case SetKilled(on) => Outcome(c.(killed := on), yes, false, false)
    case NoteRun(run) => Outcome(if run == "" then c else SetRun(c, run, RunOf(c, run)), yes, false, false)
    case NoteKey(key) =>
      if key == "" then Outcome(c, yes, false, false)
      else Outcome(SetKey(c, key, KeyAt(c, key, now)), yes, false, true)
  }

  // Eviction spares paused entries, and of the others those seen last. Which of
  // two entries seen at the same instant goes first is not determined by the code.

  datatype Age = Age(paused: bool, lastSeen: nat)

  function RunAges(runs: map<string, RunState>): map<string, Age> {
    map id | id in runs :: Age(runs[id].paused, runs[id].lastSeen)
  }

  function KeyAges(keys: map<string, KeyState>): map<string, Age> {
    map id | id in keys :: Age(keys[id].paused, keys[id].lastSeen)
  }

  function Active(ages: map<string, Age>): set<string> {
    set id | id in ages && !ages[id].paused
  }

  /** `victims` is a set the code may drop from a map of these ages to come down to `max` entries. */
  ghost predicate LegalEviction(ages: map<string, Age>, max: nat, victims: set<string>) {
    && victims <= Active(ages)
    && |victims| == (if |ages| <= max then 0 else Min(|ages| - max, |Active(ages)|))
    && forall gone, kept :: gone in victims && kept in Active(ages) - victims ==> ages[gone].lastSeen <= ages[kept].lastSeen
  }

  /** One operation at one instant, with the entries its eviction drops. */
  datatype Event = Event(op: Op, now: nat, runVictims: set<string>, keyVictims: set<string>)

  function Evict(c: Ctl, runVictims: set<string>, keyVictims: set<string>): Ctl {
    c.(runs := c.runs - runVictims, keys := c.keys - keyVictims)
  }

  function Apply(p: Policy, c: Ctl, e: Event): Ctl {
    Evict(Core(p, c, e.op, e.now).ctl, e.runVictims, e.keyVictims)
  }

  /** The stop events one operation hands out. */
  function NewStops(p: Policy, c: Ctl, e: Event): seq<StopEvent> {
    var after := Apply(p, c, e).stops;
    if |c.stops| <= |after| then after[|c.stops|..] else []
  }

  function ReplyTo(p: Policy, c: Ctl, e: Event): Reply {
    Core(p, c, e.op, e.now).reply
  }

  ghost predicate Legal(p: Policy, c: Ctl, e: Event) {
    var o := Core(p, c, e.op, e.now);
    && (if o.boundRuns then LegalEviction(RunAges(o.ctl.runs), p.maxRuns, e.runVictims) else e.runVictims == {})
    && (if o.boundKeys then LegalEviction(KeyAges(o.ctl.keys), p.maxRuns, e.keyVictims) else e.keyVictims == {})
  }

  const EMPTY := Ctl(false, map[], map[], [])
}

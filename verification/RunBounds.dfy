/**
  What a run can do before it is stopped, over every interleaving of its outstanding calls.
  Each bound rests on one inequality: what the history holds never exceeds one full allowance
  per clearance, plus what the live tallies show.
 */
module RunBounds {
  import opened Money
  import opened Control
  import opened Histories

  // What an operation does to one run.

  /** A run's tallies, without its pause. */
  function Tallies(st: RunState): (nat, nat, real, real) {
    (st.calls, st.inflight, st.spend, st.cap)
  }

  /** A controller that has seen nothing of run r, though it may hold it paused, and r's empty history. */
  predicate Untouched(r: string, w: World) {
    Tallies(RunOf(w.ctl, r)) == (0, 0, 0.0, 0.0) && w.ledger == NEW_LEDGER
  }

  lemma TouchRun(c: Ctl, run: string, key: string, now: nat, r: string)
    requires r != ""
    ensures RunOf(Touch(c, run, key, now), r) == if r == run then RunOf(c, r).(lastSeen := now) else RunOf(c, r)
  {
  }

  lemma JudgeRun(p: Policy, c: Ctl, run: string, key: string, standing: Standing, now: nat, r: string)
    requires key != "" ==> key in c.keys
    requires standing == KeyAtCap ==> key != ""
    ensures Tallies(RunOf(Judge(p, c, run, key, standing, now), r)) == Tallies(RunOf(c, r))
  {
  }

  lemma ReserveRun(c: Ctl, run: string, key: string, r: string)
    requires r != "" && (key != "" ==> key in c.keys)
    ensures Tallies(RunOf(Reserve(c, run, key), r))
         == if r == run then Tallies(RunOf(c, r)).(1 := RunOf(c, r).inflight + 1) else Tallies(RunOf(c, r))
  {
  }

  /** An admitted call is one more in flight, and was below its run's caps unless it was forced through. */
  lemma AdmitRun(p: Policy, c: Ctl, run: string, key: string, bypass: bool, now: nat, r: string)
    requires r != ""
    ensures
      var o := Core(p, c, Op.Admit(run, key, bypass), now);
      var st, st' := RunOf(c, r), RunOf(o.ctl, r);
      && Tallies(st') == (if o.reply.ok && run == r then Tallies(st).(1 := st.inflight + 1) else Tallies(st))
      && (o.reply.ok && run == r && !bypass && !p.shadow ==> RunLimit(p, st) == NoReason)
  {
    hide Projected, KeyLimit, Touch, Judge, Reserve;
    if !c.killed {
      var c1 := Touch(c, run, key, now);
      var standing := StandingOf(p, c1, run, key, bypass);
      TouchRun(c, run, key, now, r);
      JudgeRun(p, c1, run, key, standing, now, r);
      ReserveRun(Judge(p, c1, run, key, standing, now), run, key, r);
    }
  }

  lemma RecordRunEffect(p: Policy, c: Ctl, run: string, key: string, cost: real, loop: bool, now: nat, r: string)
    requires r != ""
    ensures
      var st, st' := RunOf(c, r), RunOf(Core(p, c, Record(run, key, cost, loop), now).ctl, r);
      Tallies(st') == if run == r then (st.calls + 1, Dec(st.inflight), st.spend + cost, st.cap) else Tallies(st)
  {
    hide RecordKey, RunTrips;
  }

  lemma OtherRun(p: Policy, c: Ctl, op: Op, now: nat, r: string)
    requires r != "" && !op.Admit? && !op.Record?
    ensures
      var st, st' := RunOf(c, r), RunOf(Core(p, c, op, now).ctl, r);
      match op
      case Release(run, key) => Tallies(st') == if run == r then Tallies(st).(1 := Dec(st.inflight)) else Tallies(st)
      case ResumeRun(run) => Tallies(st') == if run == r && st.paused then (0, 0, 0.0, st.cap) else Tallies(st)
      case SetRunCap(run, cap) => Tallies(st') == if run == r && cap > 0.0 then Tallies(st).(3 := cap) else Tallies(st)
      case _ => Tallies(st') == Tallies(st)
  {
  }

  // The call cap.

  ghost predicate CallsKept(p: Policy, r: string, w: World) {
    var st := RunOf(w.ctl, r);
    w.ledger.admitted - w.ledger.released - w.ledger.bypassed
      <= Allowances(w.ledger.clearances, p.maxCalls) + Min(st.calls + st.inflight, p.maxCalls)
  }

  lemma CallsOperated(p: Policy, r: string, w: World, op: Op, now: nat)
    requires r != "" && !p.shadow && p.maxCalls > 0
    requires CallsKept(p, r, w)
    ensures CallsKept(p, r, Operated(p, Run(r), w, op, now))
  {
    match op {
      case Admit(run, key, bypass) => AdmitRun(p, w.ctl, run, key, bypass, now, r);
      case Record(run, key, cost, loop) => RecordRunEffect(p, w.ctl, run, key, cost, loop, now, r);
      case _ =>
        OtherRun(p, w.ctl, op, now, r);
        }
  }

  lemma CallsDropped(p: Policy, r: string, w: World, e: Event)
    requires p.maxCalls > 0 && CallsKept(p, r, w)
    ensures CallsKept(p, r, Dropped(w, Run(r), e))
  {
  }

  /** No event breaks the inequality, whatever else is in flight. */
  lemma CallsStep(p: Policy, r: string, w: World, e: Event)
    requires r != "" && !p.shadow && p.maxCalls > 0
    requires CallsKept(p, r, w)
    ensures CallsKept(p, r, Next(p, Run(r), w, e))
  {
    CallsOperated(p, r, w, e.op, e.now);
    CallsDropped(p, r, Operated(p, Run(r), w, e.op, e.now), e);
  }

  lemma {:induction false} CallsPlay(p: Policy, r: string, w: World, es: seq<Event>)
    requires r != "" && !p.shadow && p.maxCalls > 0
    requires CallsKept(p, r, w)
    ensures CallsKept(p, r, Play(p, Run(r), w, es))
    decreases |es|
  {
    if es != [] {
      CallsStep(p, r, w, es[0]);
      CallsPlay(p, r, Next(p, Run(r), w, es[0]), es[1..]);
    }
  }

  lemma CallsFresh(p: Policy, r: string, w: World)
    requires p.maxCalls > 0 && Untouched(r, w)
    ensures CallsKept(p, r, w)
  {
  }

  lemma CallsBound(p: Policy, r: string, w: World)
    requires CallsKept(p, r, w)
    ensures w.ledger.admitted - w.ledger.released <= Allowances(w.ledger.clearances + 1, p.maxCalls) + w.ledger.bypassed
  {
  }

  /**
    The call-cap bound: after any events at all, the calls of a run admitted and not given
    back number at most one cap for the run and one more for each time it was resumed or
    evicted, besides the calls a bypass forced through. Records and releases may come late,
    after a resume, or not at all.
   */
  lemma {:induction false} CallCapBound(p: Policy, r: string, w: World, es: seq<Event>, end: World)
    requires r != "" && !p.shadow && p.maxCalls > 0
    requires Untouched(r, w) && end == Play(p, Run(r), w, es)
    ensures end.ledger.admitted - end.ledger.released
         <= (end.ledger.clearances + 1) * p.maxCalls + end.ledger.bypassed
  {
    CallsFresh(p, r, w);
    CallsPlay(p, r, w, es);
    CallsBound(p, r, end);
    AllowancesIsProduct(end.ledger.clearances + 1, p.maxCalls);
  }

  // The spend cap.

  predicate SpendPolicy(p: Policy) {
    p.maxSpend > 0.0 && p.floor >= 0.0 && !p.shadow
  }

  /** What a run's tallies show: settled spend and a floor for each call in flight. */
  function Shown(f: real, st: RunState): real {
    st.spend + Copies(st.inflight, f)
  }

  ghost predicate SpendKept(p: Policy, r: string, w: World) {
    var l, st := w.ledger, RunOf(w.ctl, r);
    && 0.0 <= st.spend <= Copies(st.calls, p.floor)
    && st.cap >= 0.0
    && Within(p.floor, Rounded(p.maxSpend), l.spent, l.out, Copies(l.bypassed, p.floor), l.clearances, Shown(p.floor, st))
  }

  /** A call is admitted only while the run's projected spend is below the server-wide cap. */
  lemma UnderServerCap(p: Policy, st: RunState)
    requires SpendPolicy(p) && RunLimit(p, st) == NoReason
    requires 0.0 <= st.spend <= Copies(st.calls, p.floor) && st.cap >= 0.0
    ensures Shown(p.floor, st) < Rounded(p.maxSpend)
  {
    FloorIsReserved(p.floor, st.spend, st.calls, st.inflight);
    MicroMonotone(SpendCapOf(p, st), p.maxSpend);
    BelowCap(Shown(p.floor, st), p.maxSpend);
  }

  lemma SpendAdmitted(p: Policy, r: string, w: World, op: Op, now: nat)
    requires r != "" && SpendPolicy(p) && op.Admit? && SpendKept(p, r, w)
    ensures SpendKept(p, r, Operated(p, Run(r), w, op, now))
  {
    hide RunLimit, AdmitCall;
    AdmitRun(p, w.ctl, op.run, op.key, op.bypass, now, r);
    if RunLimit(p, RunOf(w.ctl, r)) == NoReason {
      UnderServerCap(p, RunOf(w.ctl, r));
    }
  }

  lemma SpendRecorded(p: Policy, r: string, w: World, op: Op, now: nat)
    requires r != "" && SpendPolicy(p) && op.Record? && WithinFloor(p, op)
    requires Settles(op, Run(r), w.ledger) && SpendKept(p, r, w)
    ensures SpendKept(p, r, Operated(p, Run(r), w, op, now))
  {
    hide Core, SpendPolicy;
    RecordRunEffect(p, w.ctl, op.run, op.key, op.cost, op.loop, now, r);
  }

  lemma SpendUnsettled(p: Policy, r: string, w: World, op: Op, now: nat)
    requires r != "" && SpendPolicy(p) && !op.Admit? && !op.Record?
    requires Settles(op, Run(r), w.ledger) && SpendKept(p, r, w)
    ensures SpendKept(p, r, Operated(p, Run(r), w, op, now))
  {
    hide Core;
    OtherRun(p, w.ctl, op, now, r);
  }

  lemma SpendOperated(p: Policy, r: string, w: World, op: Op, now: nat)
    requires r != "" && SpendPolicy(p) && WithinFloor(p, op)
    requires Settles(op, Run(r), w.ledger) && SpendKept(p, r, w)
    ensures SpendKept(p, r, Operated(p, Run(r), w, op, now))
  {
    hide Core, SpendPolicy, SpendKept, Operated, Settles;
    match op {
      case Admit(_, _, _) => SpendAdmitted(p, r, w, op, now);
      case Record(_, _, _, _) => SpendRecorded(p, r, w, op, now);
      case _ => SpendUnsettled(p, r, w, op, now);
    }
  }

  lemma SpendDropped(p: Policy, r: string, w: World, e: Event)
    requires SpendPolicy(p) && SpendKept(p, r, w)
    ensures SpendKept(p, r, Dropped(w, Run(r), e))
  {
  }

  lemma {:induction false} SpendPlay(p: Policy, r: string, w: World, es: seq<Event>)
    requires r != "" && SpendPolicy(p) && (forall e <- es :: WithinFloor(p, e.op))
    requires Possible(p, Run(r), w, es) && SpendKept(p, r, w)
    ensures SpendKept(p, r, Play(p, Run(r), w, es))
    decreases |es|
  {
    if es != [] {
      SpendOperated(p, r, w, es[0].op, es[0].now);
      SpendDropped(p, r, Operated(p, Run(r), w, es[0].op, es[0].now), es[0]);
      SpendPlay(p, r, Next(p, Run(r), w, es[0]), es[1..]);
    }
  }

  lemma SpendFresh(p: Policy, r: string, w: World)
    requires SpendPolicy(p) && Untouched(r, w)
    ensures SpendKept(p, r, w)
  {
    MicroMonotone(0.0, p.maxSpend);
  }

  lemma SpendTotal(p: Policy, r: string, w: World)
    requires SpendKept(p, r, w)
    ensures Under(w.ledger.spent + Copies(w.ledger.out, p.floor),
                  Copies(w.ledger.clearances + 1, Rounded(p.maxSpend) + p.floor) + Copies(w.ledger.bypassed, p.floor),
                  Rounded(p.maxSpend) > 0.0)
  {
  }

  /**
    The spend overshoot bound: if no call costs more than the floor it is reserved at, every
    dollar ever recorded for a run, with a floor for each call still out, stays below one cap
    and one floor for the run, the same again for each time it was resumed or evicted, and a
    floor for each call forced through (and does not pass it should the cap round to nothing).
    Inline caps may be set along the way; calls that were out at a resume, whose reservations
    it wiped, are counted.
   */
  lemma {:induction false} SpendOvershootBound(p: Policy, r: string, w: World, es: seq<Event>, end: World)
    requires r != "" && SpendPolicy(p) && (forall e <- es :: WithinFloor(p, e.op))
    requires Untouched(r, w) && Possible(p, Run(r), w, es) && end == Play(p, Run(r), w, es)
    ensures Under(end.ledger.spent + Copies(end.ledger.out, p.floor),
                  Copies(end.ledger.clearances + 1, Rounded(p.maxSpend) + p.floor) + Copies(end.ledger.bypassed, p.floor),
                  Rounded(p.maxSpend) > 0.0)
  {
    hide *;
    SpendFresh(p, r, w);
    SpendPlay(p, r, w, es);
    SpendTotal(p, r, end);
  }
}

/**
  Shadow mode is a faithful rehearsal: a controller that only marks goes through the very
  states of one that enforces, up to the first call the enforcing one turns away, and marks
  that call, and none before it, with the reason the other turns it away for.
 */
module Shadow {
  import opened Money
  import opened Control

  /** The same policy, marking instead of refusing. */
  function Marking(p: Policy): Policy {
    p.(shadow := true)
  }

  /** Equal tallies, pauses and stop events, but for the events' shadow flag. */
  ghost predicate Alike(c: Ctl, d: Ctl) {
    && c.killed == d.killed && c.runs == d.runs && c.keys == d.keys
    && |c.stops| == |d.stops|
    && forall i :: 0 <= i < |c.stops| ==> c.stops[i] == d.stops[i].(shadow := c.stops[i].shadow)
  }

  /** A call turned away for a pause or a ceiling; the kill switch turns calls away in shadow mode too. */
  predicate TurnsAway(p: Policy, c: Ctl, op: Op, now: nat) {
    op.Admit? && !c.killed && !Core(p, c, op, now).reply.ok
  }

  lemma SameLimits(p: Policy, st: RunState, key: string, ks: KeyState, loop: bool)
    ensures RunLimit(Marking(p), st) == RunLimit(p, st)
    ensures KeyLimit(Marking(p), key, ks) == KeyLimit(p, key, ks)
    ensures RunTrips(Marking(p), st, loop) == RunTrips(p, st, loop)
    ensures KeyTrips(Marking(p), key, ks) == KeyTrips(p, key, ks)
  {
    hide Projected, Reserved, Micro;
  }

  lemma StopRunAlike(p: Policy, c: Ctl, d: Ctl, run: string, reason: Reason, now: nat)
    requires Alike(c, d)
    ensures Alike(StopRun(p, c, run, reason, now), StopRun(Marking(p), d, run, reason, now))
  {
  }

  lemma StopKeyAlike(p: Policy, c: Ctl, d: Ctl, key: string, reason: Reason, now: nat)
    requires Alike(c, d) && key in c.keys
    ensures Alike(StopKey(p, c, key, reason, now), StopKey(Marking(p), d, key, reason, now))
  {
  }

  lemma JudgeAlike(p: Policy, c: Ctl, d: Ctl, run: string, key: string, bypass: bool, now: nat)
    requires Alike(c, d) && (key != "" ==> key in c.keys)
    ensures StandingOf(p, c, run, key, bypass) == StandingOf(Marking(p), d, run, key, bypass)
    ensures
      var standing := StandingOf(p, c, run, key, bypass);
      Alike(Judge(p, c, run, key, standing, now), Judge(Marking(p), d, run, key, standing, now))
  {
    hide RunLimit, KeyLimit, StopRun, StopKey;
    var ks := if key != "" then c.keys[key] else FreshKey(0);
    SameLimits(p, RunOf(c, run), key, ks, false);
    match StandingOf(p, c, run, key, bypass) {
      case KeyAtCap => StopKeyAlike(p, c, d, key, KeyLimit(p, key, ks), now);
      case RunAtCap => StopRunAlike(p, c, d, run, RunLimit(p, RunOf(c, run)), now);
      case _ =>
    }
  }

  lemma TouchAlike(c: Ctl, d: Ctl, run: string, key: string, now: nat)
    requires Alike(c, d)
    ensures Alike(Touch(c, run, key, now), Touch(d, run, key, now)) && c.killed == d.killed
  {
  }

  lemma ReserveAlike(c: Ctl, d: Ctl, run: string, key: string, standing: Standing)
    requires Alike(c, d) && (key != "" ==> key in c.keys)
    ensures (key != "" ==> key in d.keys) && Alike(Reserve(c, run, key), Reserve(d, run, key))
    ensures Why(c, run, key, standing) == Why(d, run, key, standing)
    ensures standing == Clear ==> Why(c, run, key, standing) == NoReason
  {
  }

  /** At an admission the two part only where one refuses, and then only by the call's reservation. */
  lemma AdmitAlike(p: Policy, c: Ctl, d: Ctl, run: string, key: string, bypass: bool, now: nat)
    requires !p.shadow && Alike(c, d)
    ensures
      var o, o' := AdmitCall(p, c, run, key, bypass, now), AdmitCall(Marking(p), d, run, key, bypass, now);
      if c.killed || o.reply.ok then
        o'.reply == o.reply && (o.reply.ok ==> o.reply.reason == NoReason)
        && Alike(o.ctl, o'.ctl) && o'.boundKeys == o.boundKeys && !o.boundRuns && !o'.boundRuns
      else
        && o'.reply == Reply(true, o.reply.reason)
        && (key != "" ==> key in o.ctl.keys) && Alike(Reserve(o.ctl, run, key), o'.ctl)
  {
    hide Judge, StandingOf, Touch, Reserve, Why, Alike;
    assert c.killed == d.killed by { TouchAlike(c, d, run, key, now); }
    if !c.killed {
      var c1, d1 := Touch(c, run, key, now), Touch(d, run, key, now);
      TouchAlike(c, d, run, key, now);
      JudgeAlike(p, c1, d1, run, key, bypass, now);
      var standing := StandingOf(p, c1, run, key, bypass);
      ReserveAlike(Judge(p, c1, run, key, standing, now), Judge(Marking(p), d1, run, key, standing, now), run, key, standing);
    }
  }

  lemma RecordKeyAlike(p: Policy, c: Ctl, d: Ctl, key: string, cost: real, now: nat)
    requires Alike(c, d)
    ensures Alike(RecordKey(p, c, key, cost, now), RecordKey(Marking(p), d, key, cost, now))
  {
    hide KeyTrips, StopKey, KeyAt;
    var ks1 := ChargedKey(KeyAt(c, key, now), cost);
    SameLimits(p, FRESH_RUN, key, ks1, false);
    SameKey(c, d, key, now);
    StopKeyAlike(p, SetKey(c, key, ks1), SetKey(d, key, ks1), key, if ks1.paused then NoReason else KeyTrips(p, key, ks1), now);
  }

  lemma SameKey(c: Ctl, d: Ctl, key: string, now: nat)
    requires Alike(c, d)
    ensures KeyAt(c, key, now) == KeyAt(d, key, now)
  {
  }

  lemma RecordRunAlike(p: Policy, c: Ctl, d: Ctl, run: string, cost: real, loop: bool, now: nat)
    requires Alike(c, d)
    ensures Alike(RecordRun(p, c, run, cost, loop, now), RecordRun(Marking(p), d, run, cost, loop, now))
  {
    hide RunTrips, StopRun;
    var st1 := ChargedRun(RunOf(c, run), cost, now);
    SameLimits(p, st1, "", FreshKey(0), loop);
    StopRunAlike(p, SetRun(c, run, st1), SetRun(d, run, st1), run, if st1.paused then NoReason else RunTrips(p, st1, loop), now);
  }

  /** What cannot be turned away goes the same in both. */
  lemma OpAlike(p: Policy, c: Ctl, d: Ctl, op: Op, now: nat)
    requires !p.shadow && Alike(c, d) && !TurnsAway(p, c, op, now)
    ensures
      var o, o' := Core(p, c, op, now), Core(Marking(p), d, op, now);
      && o'.reply == o.reply && (op.Admit? && o.reply.ok ==> o.reply.reason == NoReason)
      && Alike(o.ctl, o'.ctl) && o'.boundRuns == o.boundRuns && o'.boundKeys == o.boundKeys
  {
    hide AdmitCall, RecordKey, RecordRun;
    match op {
      case Admit(run, key, bypass) => AdmitAlike(p, c, d, run, key, bypass, now);
      case Record(run, key, cost, loop) =>
        RecordKeyAlike(p, c, d, key, cost, now);
        RecordRunAlike(p, if key == "" then c else RecordKey(p, c, key, cost, now),
                       if key == "" then d else RecordKey(Marking(p), d, key, cost, now), run, cost, loop, now);
      case _ =>
    }
  }

  /**
    What an observer of both sees of a trace, up to and including the first call turned away:
    the same states, the same evictions open to both, the same answers and no mark; then, for
    the call turned away, the marking controller serves it with the other's reason.
   */
  ghost predicate Rehearses(p: Policy, c: Ctl, d: Ctl, es: seq<Event>)
    decreases |es|
  {
    es == [] ||
    (var e := es[0];
     && Alike(c, d)
     && if TurnsAway(p, c, e.op, e.now) then
          ReplyTo(Marking(p), d, e) == Reply(true, ReplyTo(p, c, e).reason)
        else
          && ReplyTo(Marking(p), d, e) == ReplyTo(p, c, e)
          && (e.op.Admit? && ReplyTo(p, c, e).ok ==> ReplyTo(p, c, e).reason == NoReason)
          && (Legal(p, c, e) <==> Legal(Marking(p), d, e))
          && Rehearses(p, Apply(p, c, e), Apply(Marking(p), d, e), es[1..]))
  }

  /** Shadow mode rehearses every trace of operations, from any pair of like controllers. */
  lemma {:induction false} FaithfulRehearsal(p: Policy, c: Ctl, d: Ctl, es: seq<Event>)
    requires !p.shadow && Alike(c, d)
    ensures Rehearses(p, c, d, es)
    decreases |es|
  {
    hide Core;
    if es != [] {
      var e := es[0];
      if TurnsAway(p, c, e.op, e.now) {
        TurnedAwayIsMarked(p, c, d, e);
      } else {
        OpAlike(p, c, d, e.op, e.now);
        FaithfulRehearsal(p, Apply(p, c, e), Apply(Marking(p), d, e), es[1..]);
      }
    }
  }

  lemma TurnedAwayIsMarked(p: Policy, c: Ctl, d: Ctl, e: Event)
    requires !p.shadow && Alike(c, d) && TurnsAway(p, c, e.op, e.now)
    ensures ReplyTo(Marking(p), d, e) == Reply(true, ReplyTo(p, c, e).reason)
  {
    hide AdmitCall;
    AdmitAlike(p, c, d, e.op.run, e.op.key, e.op.bypass, e.now);
  }
}

/**
  Deliveries and recoveries get somewhere. With every command answered, a flush leaves nothing
  pending and a gap ends; one that goes unanswered can be tried again; and a recovery writes back
  no more than three times before it asks for the store's switch.
 */
module Recoveries {
  import opened Control
  import opened Histories
  import opened Replica
  import Delivery
  import Store

  /** Moves of a replica that lead from one state to another. */
  ghost predicate Leads(p: Policy, watched: Subject, r: Replica, ms: seq<Move>, r': Replica) {
    CanRun(p, watched, r, ms) && Ran(p, watched, r, ms) == r'
  }

  lemma NoMoves(p: Policy, watched: Subject, r: Replica)
    ensures Leads(p, watched, r, [], r)
  {
  }

  lemma {:induction false} OneMore(p: Policy, watched: Subject, r: Replica, ms: seq<Move>, r': Replica, m: Move)
    requires Leads(p, watched, r, ms, r') && CanMove(r', m)
    ensures Leads(p, watched, r, ms + [m], Moved(p, watched, r', m))
    decreases |ms|
  {
    hide CanMove, Moved;
    if ms == [] {
      assert ms + [m] == [m] && [m][1..] == [];
      NoMoves(p, watched, Moved(p, watched, r', m));
      assert CanRun(p, watched, Moved(p, watched, r', m), [m][1..]);
    } else {
      assert (ms + [m])[1..] == ms[1..] + [m];
      OneMore(p, watched, Moved(p, watched, r, ms[0]), ms[1..], r', m);
    }
  }

  /** One delivery step further on the way. */
  lemma Delivers(p: Policy, watched: Subject, r: Replica, ms: seq<Move>, r1: Replica, d: DeliveryStep)
    returns (ms': seq<Move>, r2: Replica)
    requires Leads(p, watched, r, ms, r1) && CanDeliver(r1, d)
    ensures Leads(p, watched, r, ms', r2) && r2 == Delivered(r1, d)
  {
    hide Leads, Delivered, CanDeliver;
    ms', r2 := ms + [Steps(Deliver(d))], Delivered(r1, d);
    OneMore(p, watched, r, ms, r1, Steps(Deliver(d)));
  }

  lemma Recovers(p: Policy, watched: Subject, r: Replica, ms: seq<Move>, r1: Replica, d: RecoveryStep)
    returns (ms': seq<Move>, r2: Replica)
    requires Leads(p, watched, r, ms, r1) && CanRecover(r1, d)
    ensures Leads(p, watched, r, ms', r2) && r2 == Recovered(r1, d)
  {
    hide Leads, Recovered, CanRecover;
    ms', r2 := ms + [Steps(Recover(d))], Recovered(r1, d);
    OneMore(p, watched, r, ms, r1, Steps(Recover(d)));
  }

  /** A queue with nothing pending, everything that was pending taken. */
  predicate AllTaken(q: Queue, q': Queue) {
    && q'.batch == [] && q'.owed == [] && q'.all == q.all && q'.taken == q.taken + q.batch + q.owed
    && q'.refused == q.refused && q'.dropped == q.dropped
  }

  /** One item taken, or one batch begun, leaves fewer to go, and the rest as it was. */
  lemma OneTaken(q: Queue)
    requires q.batch != []
    ensures
      var q1 := HeadSent(q, Done);
      && |q1.batch| < |q.batch| && q1.owed == q.owed
      && forall q2 :: AllTaken(q1, q2) ==> AllTaken(q, q2)
  {
    var q1 := HeadSent(q, Done);
    assert q.batch == [q.batch[0]] + q.batch[1..];
    assert q1.taken + q1.batch + q1.owed == q.taken + q.batch + q.owed;
  }

  lemma OneBatch(q: Queue)
    requires q.batch == [] && q.owed != []
    ensures
      var q1 := BatchTaken(q);
      && 2 * |q1.owed| + |q1.batch| < 2 * |q.owed|
      && forall q2 :: AllTaken(q1, q2) ==> AllTaken(q, q2)
  {
    var q1 := BatchTaken(q);
    assert q1.batch + q1.owed == q.owed;
    assert q1.taken + q1.batch + q1.owed == q.taken + q.batch + q.owed;
  }

  /** Whoever holds the lock empties the queue, if every item is answered. */
  lemma {:induction false} Drains(p: Policy, watched: Subject, r: Replica, ms: seq<Move>, r1: Replica)
    returns (ms': seq<Move>, r2: Replica)
    requires Leads(p, watched, r, ms, r1) && !r1.holder.Nobody? && r1.stage.Draining?
    ensures Leads(p, watched, r, ms', r2) && r2 == r1.(queue := r2.queue) && AllTaken(r1.queue, r2.queue)
    decreases 2 * |r1.queue.owed| + |r1.queue.batch|
  {
    hide Leads, HeadSent, BatchTaken;
    ms', r2 := ms, r1;
    if r1.queue.batch != [] {
      OneTaken(r1.queue);
      ms', r2 := Delivers(p, watched, r, ms, r1, Take(Done));
      ms', r2 := Drains(p, watched, r, ms', r2);
    } else if r1.queue.owed != [] {
      OneBatch(r1.queue);
      ms', r2 := Delivers(p, watched, r, ms, r1, TakeBatch);
      ms', r2 := Drains(p, watched, r, ms', r2);
    }
  }

  /** A delivery under the lock, from taking it to having emptied the queue: the switch is written and clean. */
  lemma LocksAndDrains(p: Policy, watched: Subject, r: Replica, ms: seq<Move>, r1: Replica, holder: Holder)
    returns (ms': seq<Move>, r2: Replica)
    requires Leads(p, watched, r, ms, r1) && CanDeliver(r1, Lock(holder)) && !holder.Nobody?
    ensures Leads(p, watched, r, ms', r2) && AllTaken(r1.queue, r2.queue)
    ensures r2 == r1.(queue := r2.queue, holder := holder, stage := Draining, kill := r1.kill.(dirty := false))
  {
    hide Leads;
    ms', r2 := Delivers(p, watched, r, ms, r1, Lock(holder));
    if r1.kill.dirty {
      ms', r2 := Delivers(p, watched, r, ms', r2, WriteKill(Done));
      ms', r2 := Delivers(p, watched, r, ms', r2, ClearKill);
    }
    ms', r2 := Drains(p, watched, r, ms', r2);
  }

  /** A replica between deliveries. */
  predicate AtRest(r: Replica) {
    r.holder.Nobody? && r.recovery.NoRecovery? && !r.flushing && r.queue.batch == []
  }

  /**
    A healthy replica at rest can flush exactly if it owes something or its switch is dirty; and a
    flush of which nothing goes unanswered or is refused gets everything taken, the switch too, and leaves the
    replica at rest.
   */
  lemma FlushDelivers(p: Policy, watched: Subject, r: Replica) returns (ms: seq<Move>, end: Replica)
    requires AtRest(r) && !r.degraded
    ensures CanDeliver(r, StartFlush) <==> r.kill.dirty || r.queue.owed != []
    ensures Leads(p, watched, r, ms, end) && AllTaken(r.queue, end.queue) && AtRest(end)
    ensures end == r.(queue := end.queue, kill := r.kill.(dirty := false), stage := end.stage)
  {
    hide HeadRan;
    ms, end := [], r;
    if CanDeliver(r, StartFlush) {
      ms, end := Delivers(p, watched, r, ms, end, StartFlush);
      hide Leads;
      ms, end := LocksAndDrains(p, watched, r, ms, end, Flusher);
      ms, end := Delivers(p, watched, r, ms, end, Finish);
    }
  }

  /**
    A replica at rest in a gap can end it: one write-back of which nothing goes unanswered, the
    store's switch read, and decisions go back to the store over a fallback that holds that switch, with
    nothing pending.
   */
  lemma GapCanEnd(p: Policy, watched: Subject, r: Replica, on: bool, seed: Ctl) returns (ms: seq<Move>, end: Replica)
    requires AtRest(r) && r.degraded && Seed(seed, on)
    ensures Leads(p, watched, r, ms, end) && AllTaken(r.queue, end.queue) && AtRest(end) && !end.degraded
    ensures end.fallbacks == r.fallbacks + [Fallback(seed, false, NEW_LEDGER)]
    ensures end.kill == r.kill.(dirty := false, on := on)
  {
    hide HeadRan, Seed;
    assert seed.killed == on by { SeedsSwitch(seed, on); }
    ms, end := Recovers(p, watched, r, [], r, Begin);
    hide Leads;
    ms, end := LocksAndDrains(p, watched, r, ms, end, Recoverer);
    ms, end := Delivers(p, watched, r, ms, end, Finish);
    ms, end := Recovers(p, watched, r, ms, end, CheckQuiet);
    ms, end := Recovers(p, watched, r, ms, end, ReadKill(on));
    ms, end := Recovers(p, watched, r, ms, end, Swap(seed));
    ms, end := LocksAndDrains(p, watched, r, ms, end, Recoverer);
    ms, end := Delivers(p, watched, r, ms, end, Finish);
  }

  lemma SeedsSwitch(c: Ctl, killed: bool)
    requires Seed(c, killed)
    ensures c.killed == killed
  {
  }

  /**
    An item or a kill switch that goes unanswered stays pending and lets the lock go; and a healthy
    replica can then flush again, one in its gap begin again, and one whose last delivery that was go
    back to its gap.
   */
  lemma UnansweredCanRetry(r: Replica, executed: bool, d: DeliveryStep, seed: Ctl)
    requires Delivery.Tidy(r) && (d == Take(Lost(executed)) || d == WriteKill(Lost(executed))) && CanDeliver(r, d)
    requires Seed(seed, r.kill.on) && (d.WriteKill? ==> r.kill.dirty)
    ensures
      var r' := Delivered(r, d);
      && r'.holder.Nobody? && Delivery.Pending(r'.queue) == Delivery.Pending(r.queue)
      && (r.holder.Flusher? && r.recovery.NoRecovery? && !r.degraded ==> CanDeliver(r', StartFlush))
      && (r.holder.Recoverer? && r.recovery.Pass? ==> r'.degraded && CanRecover(r', Begin))
      && (r.holder.Recoverer? && r.recovery.Last? ==> CanRecover(r', Undo(seed)) && Recovered(r', Undo(seed)).degraded)
  {
    hide Seed;
    assert r.queue.batch != [] ==> (r.queue.batch + r.queue.owed) != [];
  }

  // How often a recovery writes back.

  /** Passes over the queue are counted from nought, three at the most. */
  predicate InPasses(r: Replica) {
    match r.recovery
    case Pass(n) => n < 3
    case Passed(n) => n < 3
    case _ => true
  }

  lemma MoveInPasses(p: Policy, watched: Subject, r: Replica, m: Move)
    requires CanMove(r, m) && InPasses(r)
    ensures InPasses(Moved(p, watched, r, m))
  {
    hide NewStops, Histories.Next, Seed, OweAll, Enqueued, HeadSent, BatchTaken;
    if m.Decides? {
      OwingOnly(OnFallback(p, watched, r, m.i, m.e), NewStops(p, r.fallbacks[m.i].ctl, m.e));
    }
  }

  lemma {:induction false} OwingOnly(r: Replica, evs: seq<StopEvent>)
    ensures var r' := OweAll(r, evs); r' == r.(queue := r'.queue)
    decreases |evs|
  {
    hide Enqueued;
    if evs != [] {
      OwingOnly(Owe(r, PauseOf(evs[0])), evs[1..]);
    }
  }

  lemma {:induction false} RunInPasses(p: Policy, watched: Subject, r: Replica, ms: seq<Move>)
    requires CanRun(p, watched, r, ms) && InPasses(r)
    ensures InPasses(Ran(p, watched, r, ms))
    decreases |ms|
  {
    hide CanMove, Moved, InPasses;
    if ms != [] {
      MoveInPasses(p, watched, r, ms[0]);
      RunInPasses(p, watched, Moved(p, watched, r, ms[0]), ms[1..]);
    }
  }

  /**
    In every run of a replica: after a pass over the queue the recovery asks for the store's switch
    exactly if the pass has left nothing owed and the switch clean, or was the third; otherwise
    another pass follows.
   */
  lemma {:induction false} ThreePassesAtMost(p: Policy, watched: Subject, start: Replica, ms: seq<Move>, r: Replica)
    requires Starts(start) && CanRun(p, watched, start, ms) && r == Ran(p, watched, start, ms) && r.recovery.Passed?
    ensures CanRecover(r, CheckQuiet)
    ensures
      var n, next := r.recovery.n, Recovered(r, CheckQuiet).recovery;
      && n <= 2
      && (next == Asking <==> (!r.kill.dirty && r.queue.owed == []) || n == 2)
      && (next != Asking ==> next == Pass(n + 1))
  {
    hide CanRun, Ran, Seed;
    RunInPasses(p, watched, start, ms);
  }
}

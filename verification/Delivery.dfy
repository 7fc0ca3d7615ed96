/**
  Owed delivery: nothing is lost silently, what is owed first runs in the order it was owed,
  and a gap ends only over an empty queue.
 */
module Delivery {
  import opened Control
  import opened Histories
  import opened Replica
  import Store

  function Pending(q: Queue): seq<Item> {
    q.batch + q.owed
  }

  // Order.

  /**
    `firsts` are the ids that have run, in the order each first ran; `pending` is what is still
    to be sent, and n how many were ever owed. Both rise, and nothing pending was owed before
    the last that ran: that one itself may still be pending, if its answer was lost.
   */
  ghost predicate InOrder(firsts: seq<nat>, pending: seq<Item>, n: nat) {
    && (forall i, j :: 0 <= i < j < |firsts| ==> firsts[i] < firsts[j])
    && (forall i, j :: 0 <= i < j < |pending| ==> pending[i].id < pending[j].id)
    && (forall i :: 0 <= i < |firsts| ==> firsts[i] < n)
    && (forall j :: 0 <= j < |pending| ==> pending[j].id < n)
    && (firsts != [] ==> forall j :: 0 <= j < |pending| ==> firsts[|firsts| - 1] <= pending[j].id)
  }

  lemma OneMore(firsts: seq<nat>, pending: seq<Item>, n: nat, cmd: Store.Command)
    requires InOrder(firsts, pending, n)
    ensures InOrder(firsts, pending + [Item(n, cmd)], n + 1)
  {
  }

  lemma OneFewer(firsts: seq<nat>, pending: seq<Item>, n: nat, k: nat)
    requires InOrder(firsts, pending, n) && k < |pending|
    ensures InOrder(firsts, pending[..k] + pending[k + 1..], n)
  {
    var fewer := pending[..k] + pending[k + 1..];
    assert forall j :: 0 <= j < |fewer| ==> fewer[j] == (if j < k then pending[j] else pending[j + 1]);
  }

  lemma HeadRuns(q: Queue)
    requires q.batch != [] && InOrder(q.firsts, Pending(q), |q.all|)
    ensures InOrder(HeadRan(q).firsts, Pending(q), |q.all|)
  {
    assert Pending(q)[0] == q.batch[0];
  }

  // Accounting.

  /** Items done with: taken by the store, answered with an error, or dropped from a full queue. */
  ghost function Gone(q: Queue): multiset<Item> {
    multiset(q.taken) + multiset(q.refused) + multiset(q.dropped)
  }

  /** Every item ever owed is in just one place: taken, refused, dropped, in the batch, or queued. */
  ghost predicate Accounted(q: Queue) {
    Gone(q) + multiset(Pending(q)) == multiset(q.all)
  }

  /** An item leaves the queue for good: it is accounted for where it goes. */
  lemma Leaves(q: Queue, q': Queue, k: nat)
    requires Accounted(q) && k < |Pending(q)| && q'.all == q.all
    requires Gone(q') == Gone(q) + multiset{Pending(q)[k]}
    requires Pending(q') == Pending(q)[..k] + Pending(q)[k + 1..]
    ensures Accounted(q')
  {
    hide Gone, Pending;
    var pending := Pending(q);
    assert pending == pending[..k] + ([pending[k]] + pending[k + 1..]);
  }

  /** Ids are positions in the order of owing, and what was taken has run. */
  ghost predicate Numbered(q: Queue) {
    && (forall i :: 0 <= i < |q.all| ==> q.all[i].id == i)
    && (forall it <- q.taken :: it.id in q.firsts)
  }

  // What the queue keeps.

  ghost predicate Kept(q: Queue) {
    Accounted(q) && InOrder(q.firsts, Pending(q), |q.all|) && Numbered(q)
  }

  lemma DroppingKeeps(q: Queue)
    requires Kept(q) && q.owed != []
    ensures Kept(OldestDropped(q))
  {
    hide InOrder, Accounted;
    var q1 := OldestDropped(q);
    assert Pending(q)[|q.batch|] == q.owed[0];
    OneFewer(q.firsts, Pending(q), |q.all|, |q.batch|);
    assert Pending(q1) == Pending(q)[..|q.batch|] + Pending(q)[|q.batch| + 1..];
    assert Gone(q1) == Gone(q) + multiset{q.owed[0]};
    Leaves(q, q1, |q.batch|);
  }

  lemma AppendingKeeps(q: Queue, cmd: Store.Command)
    requires Kept(q)
    ensures Kept(Appended(q, cmd))
  {
    hide InOrder;
    var q1 := Appended(q, cmd);
    OneMore(q.firsts, Pending(q), |q.all|, cmd);
    assert Pending(q1) == Pending(q) + [Item(|q.all|, cmd)];
    assert Gone(q1) == Gone(q);
  }

  lemma EnqueuingKeeps(q: Queue, cmd: Store.Command)
    requires Kept(q)
    ensures Kept(Enqueued(q, cmd)) && Enqueued(q, cmd).batch == q.batch
  {
    hide Kept;
    if |q.owed| >= MAX_OWED {
      DroppingKeeps(q);
      AppendingKeeps(OldestDropped(q), cmd);
    } else {
      AppendingKeeps(q, cmd);
    }
  }

  /** Moving items between queue and batch keeps them in order and accounted for. */
  lemma MovingKeeps(q: Queue)
    requires Kept(q)
    ensures q.batch == [] ==> Pending(BatchTaken(q)) == Pending(q) && Kept(BatchTaken(q))
    ensures Pending(PutBack(q)) == Pending(q) && Kept(PutBack(q))
  {
    hide InOrder;
    assert q.batch == [] ==> Pending(BatchTaken(q)) == Pending(q);
    assert Pending(PutBack(q)) == Pending(q);
  }

  lemma RunningKeeps(q: Queue)
    requires Kept(q) && q.batch != []
    ensures Kept(HeadRan(q)) && HeadRan(q) == q.(firsts := HeadRan(q).firsts) && q.batch[0].id in HeadRan(q).firsts
  {
    hide InOrder;
    HeadRuns(q);
    assert Pending(HeadRan(q)) == Pending(q);
    assert Gone(HeadRan(q)) == Gone(q);
    assert q.batch[0].id in HeadRan(q).firsts;
    assert forall id <- q.firsts :: id in HeadRan(q).firsts;
  }

  /** The head of the batch is done with, taken or refused. */
  lemma HeadLeaves(q: Queue, q': Queue)
    requires Kept(q) && q.batch != []
    requires (q' == q.(batch := q.batch[1..], taken := q.taken + [q.batch[0]]) && q.batch[0].id in q.firsts)
          || q' == q.(batch := q.batch[1..], refused := q.refused + [q.batch[0]])
    ensures Kept(q')
  {
    hide InOrder, Accounted;
    assert Pending(q)[0] == q.batch[0];
    OneFewer(q.firsts, Pending(q), |q.all|, 0);
    assert Pending(q') == Pending(q)[..0] + Pending(q)[1..];
    assert Gone(q') == Gone(q) + multiset{q.batch[0]};
    Leaves(q, q', 0);
  }

  lemma SendingKeeps(q: Queue, fate: Fate)
    requires Kept(q) && q.batch != []
    ensures Kept(HeadSent(q, fate))
    ensures fate.Lost? ==> Pending(HeadSent(q, fate)) == Pending(q)
  {
    hide Kept, HeadRan, PutBack;
    RunningKeeps(q);
    match fate {
      case Done => HeadLeaves(HeadRan(q), HeadSent(q, fate));
      case Refusal => HeadLeaves(q, HeadSent(q, fate));
      case Lost(executed) => MovingKeeps(if executed then HeadRan(q) else q);
    }
  }

  // What a replica keeps.

  /** A delivery holds a batch only while it empties the queue, and a recovery under way is in a gap. */
  ghost predicate Tidy(r: Replica) {
    && (r.queue.batch != [] ==> !r.holder.Nobody? && r.stage.Draining?)
    && (r.recovery.Pass? || r.recovery.Passed? || r.recovery.Asking? || r.recovery.Swapping? ==> r.degraded)
    && (r.holder.Recoverer? ==> r.recovery.Pass? || r.recovery.Last?)
    && (r.holder.Flusher? ==> r.flushing)
  }

  ghost predicate Sound(r: Replica) {
    Kept(r.queue) && Tidy(r)
  }

  lemma {:induction false} OweAllKeeps(r: Replica, evs: seq<StopEvent>)
    requires Sound(r)
    ensures Sound(OweAll(r, evs))
    decreases |evs|
  {
    hide Kept;
    if evs != [] {
      EnqueuingKeeps(r.queue, PauseOf(evs[0]));
      OweAllKeeps(Owe(r, PauseOf(evs[0])), evs[1..]);
    }
  }

  lemma OperateKeeps(p: Policy, watched: Subject, r: Replica, i: nat, e: Event)
    requires i < |r.fallbacks| && Sound(r)
    ensures Sound(Operate(p, watched, r, i, e))
  {
    hide Kept, OweAll, NewStops, Histories.Next;
    OweAllKeeps(OnFallback(p, watched, r, i, e), NewStops(p, r.fallbacks[i].ctl, e));
  }

  lemma DeliveryKeeps(r: Replica, step: DeliveryStep)
    requires CanDeliver(r, step) && Sound(r)
    ensures Sound(Delivered(r, step))
  {
    hide Kept, Pending;
    match step {
      case TakeBatch => MovingKeeps(r.queue);
      case Take(fate) => SendingKeeps(r.queue, fate);
      case _ =>
    }
  }

  lemma RecoveryKeeps(r: Replica, step: RecoveryStep)
    requires CanRecover(r, step)
    ensures Recovered(r, step).queue == r.queue && (Tidy(r) ==> Tidy(Recovered(r, step)))
  {
    hide Seed;
  }

  lemma SwitchKeeps(r: Replica, step: SwitchStep)
    requires CanSwitch(r, step)
    ensures Switched(r, step).queue == r.queue && (Tidy(r) ==> Tidy(Switched(r, step)))
  {
    hide Seed;
  }

  lemma StepKeeps(r: Replica, step: Step)
    requires Enabled(r, step) && Sound(r)
    ensures Sound(After(r, step))
  {
    hide CanDeliver, CanRecover, CanSwitch, Delivered, Recovered, Switched, Kept, Tidy;
    match step {
      case Deliver(d) => DeliveryKeeps(r, d);
      case Recover(d) => RecoveryKeeps(r, d);
      case Switch(d) => SwitchKeeps(r, d);
    }
  }

  lemma MoveKeeps(p: Policy, watched: Subject, r: Replica, m: Move)
    requires CanMove(r, m) && Sound(r)
    ensures Sound(Moved(p, watched, r, m))
  {
    hide Kept, Operate, After, Enabled, Enqueued;
    match m {
      case Owes(cmd) => EnqueuingKeeps(r.queue, cmd);
      case Decides(i, e) => OperateKeeps(p, watched, r, i, e);
      case Steps(step) => StepKeeps(r, step);
    }
  }

  lemma {:induction false} RunKeeps(p: Policy, watched: Subject, r: Replica, ms: seq<Move>)
    requires CanRun(p, watched, r, ms) && Sound(r)
    ensures Sound(Ran(p, watched, r, ms))
    decreases |ms|
  {
    hide Moved, CanMove, Sound;
    if ms != [] {
      MoveKeeps(p, watched, r, ms[0]);
      RunKeeps(p, watched, Moved(p, watched, r, ms[0]), ms[1..]);
    }
  }

  lemma StartKeeps(r: Replica)
    requires Starts(r)
    ensures Sound(r)
  {
    hide Seed;
    assert Pending(NO_QUEUE) == [];
  }

  /**
    Nothing owed is lost silently, and what is owed first runs in the order it was owed:
    after any run of a replica, through batches, put-backs, full-queue drops, outages and
    recoveries, every item ever owed is taken, refused, dropped, in the batch or queued, once;
    what was taken has run; items first ran in the order they were owed; and nothing pending
    was owed before one that has run.
   */
  lemma {:induction false} OwedDelivery(p: Policy, watched: Subject, start: Replica, ms: seq<Move>, q: Queue)
    requires Starts(start) && CanRun(p, watched, start, ms) && q == Ran(p, watched, start, ms).queue
    ensures multiset(q.taken) + multiset(q.refused) + multiset(q.dropped) + multiset(q.batch + q.owed) == multiset(q.all)
    ensures forall i :: 0 <= i < |q.all| ==> q.all[i].id == i
    ensures forall it <- q.taken :: it.id in q.firsts
    ensures forall i, j :: 0 <= i < j < |q.firsts| ==> q.firsts[i] < q.firsts[j]
    ensures forall ran <- q.firsts, it <- q.batch + q.owed :: ran <= it.id
  {
    hide CanRun, Ran, Starts;
    StartKeeps(start);
    RunKeeps(p, watched, start, ms);
  }

  // What is owed, and what is let go.

  /** A full queue lets go of the item owed longest ago, and never of the new one. */
  lemma OldestGoesFirst(q: Queue, cmd: Store.Command)
    requires Kept(q)
    ensures
      var q' := Enqueued(q, cmd);
      && q'.owed != [] && q'.owed[|q'.owed| - 1] == Item(|q.all|, cmd)
      && (|q.owed| < MAX_OWED ==> q'.dropped == q.dropped)
      && (|q.owed| >= MAX_OWED ==>
            && |q'.owed| == |q.owed| && |q'.dropped| == |q.dropped| + 1
            && forall it <- q'.owed :: q'.dropped[|q.dropped|].id < it.id)
  {
    var q', b := Enqueued(q, cmd), |q.batch|;
    if |q.owed| >= MAX_OWED {
      forall j | 0 <= j < |q'.owed| ensures q.owed[0].id < q'.owed[j].id {
        assert Pending(q)[b] == q.owed[0];
        if j < |q.owed| - 1 {
          assert Pending(q)[b + j + 1] == q.owed[j + 1] == q'.owed[j];
        }
      }
    }
  }

  lemma {:induction false} OwesAll(r: Replica, evs: seq<StopEvent>)
    ensures
      var all, all' := r.queue.all, OweAll(r, evs).queue.all;
      |all'| == |all| + |evs| && all'[..|all|] == all
      && forall j :: 0 <= j < |evs| ==> all'[|all| + j].cmd == PauseOf(evs[j])
    decreases |evs|
  {
    if evs != [] {
      var r1 := Owe(r, PauseOf(evs[0]));
      OwesAll(r1, evs[1..]);
      var all, all1, all' := r.queue.all, r1.queue.all, OweAll(r, evs).queue.all;
      assert all1 == all + [Item(|all|, PauseOf(evs[0]))];
      assert all'[..|all|] == all'[..|all1|][..|all|];
      assert all'[|all|] == all'[..|all1|][|all|];
      forall j | 0 < j < |evs| ensures all'[|all| + j].cmd == PauseOf(evs[j]) {
        assert evs[1..][j - 1] == evs[j];
      }
    }
  }

  /**
    In a gap, each stop a fallback makes, of a run or of a key, is owed to the store as a pause, in
    order of making. Out of one, none is.
   */
  lemma PausesAreOwed(p: Policy, watched: Subject, r: Replica, i: nat, e: Event)
    requires i < |r.fallbacks|
    ensures
      var stops, all, all' := NewStops(p, r.fallbacks[i].ctl, e), r.queue.all, Operate(p, watched, r, i, e).queue.all;
      if r.fallbacks[i].gap then
        |all'| == |all| + |stops| && forall j :: 0 <= j < |stops| ==> all'[|all| + j].cmd == PauseOf(stops[j])
      else all' == all
  {
    hide OweAll, NewStops, Histories.Next, PauseOf;
    OwesAll(OnFallback(p, watched, r, i, e), NewStops(p, r.fallbacks[i].ctl, e));
  }

  // How a gap ends.

  predicate RecoveryOver(r: Replica, r': Replica) {
    !r.recovery.NoRecovery? && r'.recovery.NoRecovery?
  }

  predicate GapOver(r: Replica, r': Replica) {
    r.degraded && !r'.degraded
  }

  lemma DeliveryEnds(r: Replica, step: DeliveryStep)
    requires CanDeliver(r, step) && Sound(r)
    ensures
      var r' := Delivered(r, step);
      && !GapOver(r, r')
      && (RecoveryOver(r, r') ==>
            (r.recovery.Last? && Pending(r.queue) == []) || (r'.degraded && Pending(r'.queue) == Pending(r.queue)))
  {
    hide Kept;
    if step.Take? {
      SendingKeeps(r.queue, step.fate);
    }
  }

  lemma RecoveryEnds(r: Replica, step: RecoveryStep)
    requires CanRecover(r, step) && Tidy(r)
    ensures
      var r' := Recovered(r, step);
      (GapOver(r, r') ==> step.Swap?) && (RecoveryOver(r, r') ==> r'.degraded)
  {
    hide Seed;
  }

  /**
    A recovery ends either having found nothing pending after decisions went back to the
    store, or with the replica in its gap still and every untaken item pending in order. Only
    the hand-over to the store ends a gap.
   */
  lemma {:induction false} GapEnds(p: Policy, watched: Subject, start: Replica, ms: seq<Move>, r: Replica, step: Step)
    requires Starts(start) && CanRun(p, watched, start, ms) && r == Ran(p, watched, start, ms)
    requires Enabled(r, step)
    ensures
      var r' := After(r, step);
      && (RecoveryOver(r, r') ==>
            (r.recovery.Last? && Pending(r.queue) == []) || (r'.degraded && Pending(r'.queue) == Pending(r.queue)))
      && (GapOver(r, r') ==> step.Recover? && step.recovery.Swap?)
  {
    hide CanRun, Ran, Starts, Kept, Tidy, Pending, CanDeliver, CanRecover, Delivered, Recovered, Seed;
    StartKeeps(start);
    RunKeeps(p, watched, start, ms);
    match step {
      case Deliver(d) => DeliveryEnds(r, d);
      case Recover(d) =>
        RecoveryKeeps(r, d);
        RecoveryEnds(r, d);
      case Switch(_) =>
    }
  }
}

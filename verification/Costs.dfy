/**
  What calls cost, wherever their settlements wait: if no call that ends costs more than the floor
  it is reserved at, no settlement that reaches the store does.
 */
module Costs {
  import opened Control
  import opened Histories
  import opened Money
  import opened Replica
  import opened Clusters
  import opened Exactness
  import Store

  /** A settlement costs no more than the floor. */
  predicate Affordable(p: Policy, cmd: Store.Command) {
    cmd.DoRecord? ==> 0 <= cmd.cost && cmd.cost as real <= p.floor
  }

  /** No call costs more than the floor it is reserved at. */
  predicate Cheap(p: Policy, a: Act) {
    match a
    case End(_, Costs(cost, _)) => 0 <= cost && cost as real <= p.floor
    case OnReplica(_, Decides(_, e), _) => WithinFloor(p, e.op)
    case _ => true
  }

  ghost predicate QueueCheap(p: Policy, q: Queue) {
    (forall it <- q.batch :: Affordable(p, it.cmd)) && (forall it <- q.owed :: Affordable(p, it.cmd))
  }

  ghost predicate CallsCheap(p: Policy, c: Cluster) {
    forall tok <- c.calls ::
      c.calls[tok].Closing? && c.calls[tok].closing.Costs? ==>
        0 <= c.calls[tok].closing.cost && c.calls[tok].closing.cost as real <= p.floor
  }

  lemma EnqueuedCheap(p: Policy, q: Queue, cmd: Store.Command)
    requires QueueCheap(p, q) && Affordable(p, cmd)
    ensures QueueCheap(p, Enqueued(q, cmd))
  {
  }

  lemma {:induction false} OwingCheap(p: Policy, rep: Replica, evs: seq<StopEvent>)
    requires QueueCheap(p, rep.queue)
    ensures QueueCheap(p, OweAll(rep, evs).queue)
    decreases |evs|
  {
    hide Enqueued, QueueCheap;
    if evs != [] {
      EnqueuedCheap(p, rep.queue, PauseOf(evs[0]));
      OwingCheap(p, Owe(rep, PauseOf(evs[0])), evs[1..]);
    }
  }

  lemma DeliveryCheap(p: Policy, rep: Replica, step: DeliveryStep)
    requires CanDeliver(rep, step) && QueueCheap(p, rep.queue)
    ensures QueueCheap(p, Delivered(rep, step).queue)
  {
    hide Affordable;
  }

  lemma MoveCheap(p: Policy, watched: Subject, rep: Replica, m: Move)
    requires CanMove(rep, m) && (m.Owes? ==> !Settling(m.cmd)) && QueueCheap(p, rep.queue)
    ensures QueueCheap(p, Moved(p, watched, rep, m).queue)
  {
    hide QueueCheap, Enqueued, OweAll, NewStops, Next, CanDeliver, CanRecover, CanSwitch, Delivered, Recovered, Switched;
    match m {
      case Owes(cmd) => EnqueuedCheap(p, rep.queue, cmd);
      case Decides(i, e) => OwingCheap(p, OnFallback(p, watched, rep, i, e), NewStops(p, rep.fallbacks[i].ctl, e));
      case Steps(step) =>
        match step {
          case Deliver(d) => DeliveryCheap(p, rep, d);
          case Recover(d) => RecoveryQueue(rep, d);
          case Switch(d) => SwitchQueue(rep, d);
        }
    }
  }

  lemma CallCommand(p: Policy, c: Cluster, tok: Store.Token)
    requires CallsCheap(p, c) && tok in c.calls && c.calls[tok].Closing? && tok in c.drawn
    ensures Affordable(p, CommandOf(c.drawn[tok], tok, c.calls[tok].closing))
  {
  }

  lemma OrdersCostNothing(p: Policy, cmd: Store.Command)
    requires !cmd.DoRecord?
    ensures Affordable(p, cmd)
  {
  }

  /** Acts in which no call costs more than the floor. */
  predicate AllCheap(p: Policy, acts: seq<Act>) {
    forall i :: 0 <= i < |acts| ==> Cheap(p, acts[i])
  }

  /** Wherever a cost waits to be recorded, it is no more than the floor. */
  ghost predicate CostsKept(p: Policy, c: Cluster) {
    CallsCheap(p, c) && forall i :: 0 <= i < |c.replicas| ==> QueueCheap(p, c.replicas[i].queue)
  }

  lemma ActCheap(p: Policy, watched: Subject, c: Cluster, a: Act)
    requires CanAct(c, a) && Cheap(p, a) && CostsKept(p, c)
    ensures CostsKept(p, Acted(p, watched, c, a))
  {
    hide QueueCheap, Store.Exec, Store.Admit, StoreAfter, Moved, CanMove, Enqueued, Affordable, WithinFloor;
    match a {
      case OweIt(tok) =>
        CallCommand(p, c, tok);
        EnqueuedCheap(p, c.replicas[c.drawn[tok].replica].queue, CommandOf(c.drawn[tok], tok, c.calls[tok].closing));
      case OnReplica(i, m, today) => MoveCheap(p, watched, c.replicas[i], m);
      case _ =>
    }
  }

  lemma BeginCheap(p: Policy, c: Cluster)
    requires Begins(c)
    ensures CostsKept(p, c)
  {
    hide Seed;
  }
}

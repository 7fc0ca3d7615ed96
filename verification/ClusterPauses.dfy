/**
  The store of a whole cluster goes through scripts and nothing else, so what any scripts keep
  holds of it: pauses stand.
 */
module ClusterPauses {
  import opened Control
  import opened Histories
  import opened Replica
  import opened Clusters
  import opened StorePauses
  import Money
  import Store

  // The scripts of a cluster.

  /** The script an act gets run in the store, if it does. */
  function ScriptOf(p: Policy, c: Cluster, a: Act): seq<Store.Script>
    requires CanAct(c, a)
  {
    match a
    case Arrive(tok, today) =>
      var ask := c.drawn[tok];
      [Store.Asks(ask.run, ask.key, Store.ModeOf(p, ask.bypass), tok, today)]
    case Settle(tok, fate, today) =>
      if Executed(fate) then [Store.Does(CommandOf(c.drawn[tok], tok, c.calls[tok].closing), today)] else []
    case OnReplica(i, m, today) => MoveScript(c.replicas[i], m, today)
    case Ordered(cmd, today) => [Store.Does(cmd, today)]
    case _ => []
  }

  function MoveScript(r: Replica, m: Move, today: nat): seq<Store.Script>
    requires CanMove(r, m)
  {
    match m
    case Steps(Deliver(Take(fate))) => if Executed(fate) then [Store.Does(r.queue.batch[0].cmd, today)] else []
    case Steps(Deliver(WriteKill(fate))) => if Executed(fate) then [Store.Kills(r.stage.on)] else []
    case Steps(Switch(SetterWrites(i, fate))) => if Executed(fate) then [Store.Kills(r.kill.setters[i].on)] else []
    case _ => []
  }

  function ScriptsOf(p: Policy, watched: Subject, c: Cluster, acts: seq<Act>): seq<Store.Script>
    requires CanUnfold(p, watched, c, acts)
    decreases |acts|
  {
    if acts == [] then [] else ScriptOf(p, c, acts[0]) + ScriptsOf(p, watched, Acted(p, watched, c, acts[0]), acts[1..])
  }

  lemma OneScript(l: Store.Limits, s: Store.State, xs: seq<Store.Script>)
    requires |xs| <= 1
    ensures Store.RanAll(l, s, xs) == if xs == [] then s else Store.Ran(l, s, xs[0])
  {
  }

  lemma ActRunsScript(p: Policy, watched: Subject, c: Cluster, a: Act)
    requires CanAct(c, a)
    ensures |ScriptOf(p, c, a)| <= 1
    ensures Acted(p, watched, c, a).store == Store.RanAll(Store.LimitsOf(p), c.store, ScriptOf(p, c, a))
  {
    hide Store.RanAll, Store.Admit, Store.Exec, Moved, Enqueued, CanRecover, CanSwitch;
    OneScript(Store.LimitsOf(p), c.store, ScriptOf(p, c, a));
  }

  lemma {:induction false} ScriptsChain(l: Store.Limits, s: Store.State, xs: seq<Store.Script>, ys: seq<Store.Script>)
    ensures Store.RanAll(l, s, xs + ys) == Store.RanAll(l, Store.RanAll(l, s, xs), ys)
    decreases |xs|
  {
    hide Store.Ran;
    if xs == [] {
      assert xs + ys == ys;
    } else {
      assert (xs + ys)[1..] == xs[1..] + ys;
      ScriptsChain(l, Store.Ran(l, s, xs[0]), xs[1..], ys);
    }
  }

  /** Whatever a cluster does, its store is as the scripts its acts got run have left it. */
  lemma {:induction false} StoreIsScripts(p: Policy, watched: Subject, c: Cluster, acts: seq<Act>)
    requires CanUnfold(p, watched, c, acts)
    ensures Unfolded(p, watched, c, acts).store == Store.RanAll(Store.LimitsOf(p), c.store, ScriptsOf(p, watched, c, acts))
    decreases |acts|
  {
    hide Acted, CanAct, ScriptOf, Store.Ran;
    if acts != [] {
      ActRunsScript(p, watched, c, acts[0]);
      var c1 := Acted(p, watched, c, acts[0]);
      StoreIsScripts(p, watched, c1, acts[1..]);
      ScriptsChain(Store.LimitsOf(p), c.store, ScriptOf(p, c, acts[0]), ScriptsOf(p, watched, c1, acts[1..]));
    }
  }

  /**
    A run's pause in the store stands, through all the traffic, gaps, write-backs and repeats of any
    number of replicas, until a resume of it is carried out there.
   */
  lemma {:induction false} RunPauseStandsInCluster(p: Policy, watched: Subject, c: Cluster, acts: seq<Act>, r: string)
    requires r != "" && RunStopped(c.store, r) && CanUnfold(p, watched, c, acts)
    requires forall x <- ScriptsOf(p, watched, c, acts) :: !(x.Does? && x.cmd == Store.DoResumeRun(r))
    ensures RunStopped(Unfolded(p, watched, c, acts).store, r)
  {
    hide CanUnfold, Unfolded, ScriptsOf, RunStopped, Store.RanAll;
    StoreIsScripts(p, watched, c, acts);
    RunPauseStands(Store.LimitsOf(p), c.store, ScriptsOf(p, watched, c, acts), r);
  }

  /** A key's total-cap pause stands until its resume, or the write-back of a daily one, is carried out there. */
  lemma {:induction false} TotalPauseStandsInCluster(p: Policy, watched: Subject, c: Cluster, acts: seq<Act>, key: string)
    requires key != "" && TotalStopped(c.store, key) && CanUnfold(p, watched, c, acts)
    requires LeftAlone(Store.LimitsOf(p), c.store, ScriptsOf(p, watched, c, acts), key)
    ensures TotalStopped(Unfolded(p, watched, c, acts).store, key)
  {
    hide CanUnfold, Unfolded, ScriptsOf, TotalStopped, LeftAlone, Store.RanAll;
    StoreIsScripts(p, watched, c, acts);
    TotalPauseStands(Store.LimitsOf(p), c.store, ScriptsOf(p, watched, c, acts), key);
  }
}

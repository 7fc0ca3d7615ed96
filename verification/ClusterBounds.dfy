/**
  The call cap across a whole cluster: whatever the interleaving of replicas, gaps, recoveries
  and lost answers, the store allows a run one cap, and each fallback ever built allows one.
 */
module ClusterBounds {
  import opened Control
  import opened Histories
  import opened Money
  import opened Replica
  import opened Clusters
  import opened Exactness
  import opened Sets
  import RunBounds
  import Store
  import StoreLedger

  // The fallbacks.

  ghost predicate FallbackKept(p: Policy, r: string, f: Fallback) {
    RunBounds.CallsKept(p, r, World(f.ctl, f.ledger))
  }

  ghost predicate FallbacksKept(p: Policy, r: string, rep: Replica) {
    forall f <- rep.fallbacks :: FallbackKept(p, r, f)
  }

  lemma SeedKept(p: Policy, r: string, seed: Ctl, killed: bool, gap: bool)
    requires p.maxCalls > 0 && Seed(seed, killed)
    ensures FallbackKept(p, r, Fallback(seed, gap, NEW_LEDGER))
  {
    RunBounds.CallsFresh(p, r, World(seed, NEW_LEDGER));
  }

  lemma KilledKept(p: Policy, r: string, f: Fallback, on: bool)
    requires FallbackKept(p, r, f)
    ensures FallbackKept(p, r, f.(ctl := f.ctl.(killed := on)))
  {
  }

  // What becomes of a replica's fallbacks.

  /** A fallback that is new, or was there, or was but for its kill switch, or has just taken the move's event. */
  ghost predicate Descends(p: Policy, watched: Subject, rep: Replica, m: Move, f: Fallback) {
    || (f.ledger == NEW_LEDGER && Seed(f.ctl, f.ctl.killed))
    || f in rep.fallbacks
    || (exists g <- rep.fallbacks :: f == g.(ctl := g.ctl.(killed := f.ctl.killed)))
    || (m.Decides? && m.i < |rep.fallbacks| &&
        var g := rep.fallbacks[m.i];
        var w := Next(p, watched, World(g.ctl, g.ledger), m.e);
        f == g.(ctl := w.ctl, ledger := w.ledger))
  }

  lemma {:induction false} OwingDescends(rep: Replica, evs: seq<StopEvent>)
    ensures OweAll(rep, evs).fallbacks == rep.fallbacks
    decreases |evs|
  {
    hide Enqueued;
    if evs != [] {
      OwingDescends(Owe(rep, PauseOf(evs[0])), evs[1..]);
    }
  }

  lemma SwitchDescends(p: Policy, watched: Subject, rep: Replica, step: SwitchStep, f: Fallback)
    requires CanSwitch(rep, step) && f in Switched(rep, step).fallbacks
    ensures Descends(p, watched, rep, Steps(Switch(step)), f)
  {
    hide Seed;
    if (step.SetKill? || step.Mirror?) && f !in rep.fallbacks {
      var g := rep.fallbacks[|rep.fallbacks| - 1];
      assert g in rep.fallbacks && f == g.(ctl := g.ctl.(killed := f.ctl.killed));
    } else if step.Degrade? && f !in rep.fallbacks {
      SeedsOwnSwitch(step.seed, rep.kill.on);
    }
  }

  lemma SeedsOwnSwitch(c: Ctl, killed: bool)
    requires Seed(c, killed)
    ensures Seed(c, c.killed)
  {
  }

  lemma RecoveryDescends(p: Policy, watched: Subject, rep: Replica, step: RecoveryStep, f: Fallback)
    requires CanRecover(rep, step) && f in Recovered(rep, step).fallbacks
    ensures Descends(p, watched, rep, Steps(Recover(step)), f)
  {
    hide Seed;
    match step {
      case Swap(seed) => SeedsOwnSwitch(seed, if rep.kill.dirty then rep.kill.on else rep.recovery.read);
      case Undo(seed) => SeedsOwnSwitch(seed, rep.kill.on);
      case _ =>
    }
  }

  /** Every fallback a replica has after a move comes of one it had, or is new. */
  lemma FallbacksDescend(p: Policy, watched: Subject, rep: Replica, m: Move, f: Fallback)
    requires CanMove(rep, m) && f in Moved(p, watched, rep, m).fallbacks
    ensures Descends(p, watched, rep, m, f)
  {
    hide Seed, CanRecover, CanSwitch, Recovered, Switched, OweAll, NewStops, Enqueued, HeadSent, Next;
    match m {
      case Owes(_) =>
      case Decides(i, e) => OwingDescends(OnFallback(p, watched, rep, i, e), NewStops(p, rep.fallbacks[i].ctl, e));
      case Steps(step) =>
        match step {
          case Deliver(_) =>
          case Recover(d) => RecoveryDescends(p, watched, rep, d, f);
          case Switch(d) => SwitchDescends(p, watched, rep, d, f);
        }
    }
  }

  lemma DescendantKept(p: Policy, r: string, rep: Replica, m: Move, f: Fallback)
    requires r != "" && p.maxCalls > 0 && !p.shadow && FallbacksKept(p, r, rep) && Descends(p, Run(r), rep, m, f)
    ensures FallbackKept(p, r, f)
  {
    hide Seed, FallbackKept, Next;
    if f.ledger == NEW_LEDGER && Seed(f.ctl, f.ctl.killed) {
      SeedKept(p, r, f.ctl, f.ctl.killed, f.gap);
    } else if f !in rep.fallbacks {
      if g :| g in rep.fallbacks && f == g.(ctl := g.ctl.(killed := f.ctl.killed)) {
        KilledKept(p, r, g, f.ctl.killed);
      } else {
        DecisionKept(p, r, rep.fallbacks[m.i], m.e);
      }
    }
  }

  lemma DecisionKept(p: Policy, r: string, f: Fallback, e: Event)
    requires r != "" && p.maxCalls > 0 && !p.shadow && FallbackKept(p, r, f)
    ensures var w := Next(p, Run(r), World(f.ctl, f.ledger), e); FallbackKept(p, r, f.(ctl := w.ctl, ledger := w.ledger))
  {
    hide Next, RunBounds.CallsKept;
    RunBounds.CallsStep(p, r, World(f.ctl, f.ledger), e);
  }

  lemma MoveKept(p: Policy, r: string, rep: Replica, m: Move)
    requires r != "" && p.maxCalls > 0 && !p.shadow && CanMove(rep, m) && FallbacksKept(p, r, rep)
    ensures FallbacksKept(p, r, Moved(p, Run(r), rep, m))
  {
    hide FallbackKept, Descends, CanMove, Moved;
    forall f | f in Moved(p, Run(r), rep, m).fallbacks ensures FallbackKept(p, r, f) {
      FallbacksDescend(p, Run(r), rep, m, f);
      DescendantKept(p, r, rep, m, f);
    }
  }

  // The store.

  ghost predicate StoreKept(p: Policy, r: string, s: Store.State) {
    StoreLedger.CallsKept(Store.LimitsOf(p), s, r)
  }

  lemma StoreMoveKept(p: Policy, r: string, s: Store.State, rep: Replica, m: Move, today: nat)
    requires r != "" && p.maxCalls > 0 && CanMove(rep, m) && StoreKept(p, r, s)
    ensures StoreKept(p, r, StoreAfter(p, s, rep, m, today))
  {
    hide Store.Exec, CanRecover, CanSwitch, StoreLedger.Count;
    if TakesHead(m) {
      StoreLedger.ExecKeepsCalls(Store.LimitsOf(p), s, rep.queue.batch[0].cmd, today, r);
    }
  }

  // The whole.

  ghost predicate Bounded(p: Policy, r: string, c: Cluster) {
    StoreKept(p, r, c.store) && forall i :: 0 <= i < |c.replicas| ==> FallbacksKept(p, r, c.replicas[i])
  }

  lemma ActKept(p: Policy, r: string, c: Cluster, a: Act)
    requires r != "" && p.maxCalls > 0 && !p.shadow && CanAct(c, a) && Bounded(p, r, c)
    ensures Bounded(p, r, Acted(p, Run(r), c, a))
  {
    hide FallbackKept, StoreKept, Store.Exec, Store.Admit, StoreAfter, Moved, CanMove, Enqueued;
    var l := Store.LimitsOf(p);
    match a {
      case Arrive(tok, today) =>
        var ask := c.drawn[tok];
        ArrivalKept(p, r, c.store, ask, today, tok);
      case Settle(tok, fate, today) =>
        ExecutionKept(p, r, c.store, CommandOf(c.drawn[tok], tok, c.calls[tok].closing), today);
      case OnReplica(i, m, today) =>
        StoreMoveKept(p, r, c.store, c.replicas[i], m, today);
        MoveKept(p, r, c.replicas[i], m);
      case Ordered(cmd, today) => ExecutionKept(p, r, c.store, cmd, today);
      case _ =>
    }
  }

  lemma ArrivalKept(p: Policy, r: string, s: Store.State, ask: Ask, today: nat, tok: Store.Token)
    requires r != "" && p.maxCalls > 0 && !p.shadow && (ask.run != "" || ask.key != "") && StoreKept(p, r, s)
    ensures StoreKept(p, r, Store.Admit(Store.LimitsOf(p), s, ask.run, ask.key, Store.ModeOf(p, ask.bypass), today, tok).0)
  {
    hide Store.Admit, StoreLedger.CallsKept;
    StoreLedger.AdmitKeepsCalls(Store.LimitsOf(p), s, ask.run, ask.key, Store.ModeOf(p, ask.bypass), today, tok, r);
  }

  lemma ExecutionKept(p: Policy, r: string, s: Store.State, cmd: Store.Command, today: nat)
    requires r != "" && p.maxCalls > 0 && StoreKept(p, r, s)
    ensures StoreKept(p, r, Store.Exec(Store.LimitsOf(p), s, cmd, today))
  {
    hide Store.Exec, StoreLedger.CallsKept;
    StoreLedger.ExecKeepsCalls(Store.LimitsOf(p), s, cmd, today, r);
  }

  lemma {:induction false} PlayKept(p: Policy, r: string, c: Cluster, acts: seq<Act>)
    requires r != "" && p.maxCalls > 0 && !p.shadow && CanUnfold(p, Run(r), c, acts) && Bounded(p, r, c)
    ensures Bounded(p, r, Unfolded(p, Run(r), c, acts))
    decreases |acts|
  {
    hide Acted, CanAct, Bounded;
    if acts != [] {
      ActKept(p, r, c, acts[0]);
      PlayKept(p, r, Acted(p, Run(r), c, acts[0]), acts[1..]);
    }
  }

  lemma BeginKept(p: Policy, r: string, c: Cluster)
    requires p.maxCalls > 0 && Begins(c)
    ensures Bounded(p, r, c)
  {
    hide Seed;
    forall i | 0 <= i < |c.replicas| ensures FallbacksKept(p, r, c.replicas[i]) {
      var f := c.replicas[i].fallbacks[0];
      SeedKept(p, r, f.ctl, false, f.gap);
    }
  }

  // The sums.

  /** Calls of the watched run these fallbacks admitted, less those they were given back. */
  function Net(fs: seq<Fallback>): int {
    if fs == [] then 0 else fs[0].ledger.admitted - fs[0].ledger.released + Net(fs[1..])
  }

  /** What they may admit: a cap each, and one more for each resume or eviction, besides forced calls. */
  function Granted(p: Policy, fs: seq<Fallback>): int {
    if fs == [] then 0
    else Allowances(fs[0].ledger.clearances + 1, p.maxCalls) + fs[0].ledger.bypassed + Granted(p, fs[1..])
  }

  /** Every fallback ever built, by any replica. */
  function FallbacksOf(reps: seq<Replica>): seq<Fallback> {
    if reps == [] then [] else reps[0].fallbacks + FallbacksOf(reps[1..])
  }

  lemma {:induction false} AllKept(p: Policy, r: string, reps: seq<Replica>)
    requires forall i :: 0 <= i < |reps| ==> FallbacksKept(p, r, reps[i])
    ensures forall f <- FallbacksOf(reps) :: FallbackKept(p, r, f)
  {
    hide FallbackKept;
    if reps != [] {
      assert FallbacksKept(p, r, reps[0]);
      AllKept(p, r, reps[1..]);
    }
  }

  lemma {:induction false} NetWithinGranted(p: Policy, r: string, fs: seq<Fallback>)
    requires forall f <- fs :: FallbackKept(p, r, f)
    ensures Net(fs) <= Granted(p, fs)
  {
    if fs != [] {
      assert FallbackKept(p, r, fs[0]);
      RunBounds.CallsBound(p, r, World(fs[0].ctl, fs[0].ledger));
      NetWithinGranted(p, r, fs[1..]);
    }
  }

  /** What the store served and was not told to give back. */
  lemma StoreShare(p: Policy, r: string, c: Cluster)
    requires Exact(c, Store.InRun(r)) && StoreKept(p, r, c.store)
    ensures
      var log := c.store.log;
      |ServedAt(c, Store.InRun(r))| - |FreedAt(c, Store.InRun(r))|
      <= Allowances(StoreLedger.Count(log, StoreLedger.Wipe, Store.InRun(r)) + 1, p.maxCalls)
                                + StoreLedger.Count(log, StoreLedger.Forced, Store.InRun(r))
  {
    hide StoreLedger.Count, StoreLedger.Sum, StoreLedger.GivenBack, QueuesTrue, AsksTrue, CallsTrue, AllHeld;
    Fewer(ServedAt(c, Store.InRun(r)), ServedIn(c.store, Store.InRun(r)));
    Fewer(StoreLedger.GivenBack(c.store.log, Store.InRun(r)), FreedAt(c, Store.InRun(r)));
  }

  /**
    The cluster-wide bound: over every interleaving of replicas, gaps, recoveries, lost
    answers and repeats, the calls of a run that any replica served and did not give back
    number at most what the store and each fallback controller ever built allow on their own.
   */
  lemma {:induction false} ClusterWideBound(p: Policy, r: string, start: Cluster, acts: seq<Act>, c: Cluster)
    requires r != "" && p.maxCalls > 0 && !p.shadow
    requires Begins(start) && CanUnfold(p, Run(r), start, acts) && c == Unfolded(p, Run(r), start, acts)
    ensures
      var log, fs := c.store.log, FallbacksOf(c.replicas);
      |ServedAt(c, Store.InRun(r))| - |FreedAt(c, Store.InRun(r))| + Net(fs)
      <= Allowances(StoreLedger.Count(log, StoreLedger.Wipe, Store.InRun(r)) + 1, p.maxCalls)
         + StoreLedger.Count(log, StoreLedger.Forced, Store.InRun(r)) + Granted(p, fs)
  {
    assert Store.IsPlace(Store.InRun(r));
    hide *;
    BeginExact(start, Store.InRun(r));
    Exactness.PlayKeeps(p, Run(r), Store.InRun(r), start, acts);
    BeginKept(p, r, start);
    PlayKept(p, r, start, acts);
    Shares(p, r, c);
  }

  lemma Shares(p: Policy, r: string, c: Cluster)
    requires Exact(c, Store.InRun(r)) && Bounded(p, r, c)
    ensures
      var log, fs := c.store.log, FallbacksOf(c.replicas);
      |ServedAt(c, Store.InRun(r))| - |FreedAt(c, Store.InRun(r))| + Net(fs)
      <= Allowances(StoreLedger.Count(log, StoreLedger.Wipe, Store.InRun(r)) + 1, p.maxCalls)
         + StoreLedger.Count(log, StoreLedger.Forced, Store.InRun(r)) + Granted(p, fs)
  {
    hide Exact, FallbacksKept, StoreKept, Allowances, Net, Granted, FallbacksOf, StoreLedger.Count;
    StoreShare(p, r, c);
    AllKept(p, r, c.replicas);
    NetWithinGranted(p, r, FallbacksOf(c.replicas));
  }

  /** Nobody resumed the run, forced a call of it through, or evicted it. */
  ghost predicate Undisturbed(r: string, c: Cluster) {
    && StoreLedger.Count(c.store.log, StoreLedger.Wipe, Store.InRun(r)) == 0
    && StoreLedger.Count(c.store.log, StoreLedger.Forced, Store.InRun(r)) == 0
    && forall f <- FallbacksOf(c.replicas) :: f.ledger.clearances == 0 && f.ledger.bypassed == 0
  }

  lemma {:induction false} GrantedOneCap(p: Policy, fs: seq<Fallback>)
    requires forall f <- fs :: f.ledger.clearances == 0 && f.ledger.bypassed == 0
    ensures Granted(p, fs) == |fs| * p.maxCalls
  {
    if fs != [] {
      GrantedOneCap(p, fs[1..]);
      AllowancesIsProduct(1, p.maxCalls);
      assert fs[0].ledger.clearances == 0 && |fs[1..]| == |fs| - 1;
      assert |fs| * p.maxCalls == p.maxCalls + (|fs| - 1) * p.maxCalls;
    }
  }

  /** With no resume, bypass or eviction: one cap for the store and one for each fallback ever built. */
  lemma {:induction false} OneCapEach(p: Policy, r: string, start: Cluster, acts: seq<Act>, c: Cluster)
    requires r != "" && p.maxCalls > 0 && !p.shadow
    requires Begins(start) && CanUnfold(p, Run(r), start, acts) && c == Unfolded(p, Run(r), start, acts)
    requires Undisturbed(r, c)
    ensures |ServedAt(c, Store.InRun(r))| - |FreedAt(c, Store.InRun(r))| + Net(FallbacksOf(c.replicas))
         <= (1 + |FallbacksOf(c.replicas)|) * p.maxCalls
  {
    hide CanUnfold, Unfolded, Begins, Net, FallbacksOf, StoreLedger.Count;
    ClusterWideBound(p, r, start, acts, c);
    GrantedOneCap(p, FallbacksOf(c.replicas));
    AllowancesIsProduct(1, p.maxCalls);
    var n := |FallbacksOf(c.replicas)|;
    assert (1 + n) * p.maxCalls == p.maxCalls + n * p.maxCalls;
  }
}

/**
  The spend cap across a whole cluster: dollars recorded, in the store and by every fallback
  ever built, with a floor for each call out, against one cap and one floor for each of them.
  Which fallback settles a call is not always the one that admitted it, so nothing here counts
  on that: admissions, records and releases are tallied apart.
 */
module ClusterSpend {
  import opened Control
  import opened Histories
  import opened Money
  import opened Nets
  import opened Replica
  import opened Clusters
  import opened Exactness
  import opened Costs
  import opened StoreLedger
  import ClusterBounds
  import RunBounds
  import Store

  /** A spend cap of at least a micro-dollar, a floor in whole ones, and no shadow mode. */
  predicate CapPolicy(p: Policy) {
    p.maxSpend > 0.0 && Micro(p.maxSpend) > 0 && p.floor >= 0.0 && Whole(p.floor) && !p.shadow
  }

  // A fallback.

  ghost predicate NetKept(p: Policy, r: string, w: World) {
    var l, st := w.ledger, RunOf(w.ctl, r);
    && 0.0 <= st.spend <= Copies(st.calls, p.floor) && st.cap >= 0.0
    && Within(p.floor, Rounded(p.maxSpend), l.spent, l.admitted, Given(p.floor, l.recorded, l.released, l.bypassed),
              l.clearances, Showing(p.floor, st.spend, st.inflight))
  }

  lemma KilledRefuses(p: Policy, c: Ctl, op: Op, now: nat)
    requires op.Admit? && c.killed
    ensures !Core(p, c, op, now).reply.ok
  {
  }

  lemma NetAdmitted(p: Policy, r: string, w: World, op: Op, now: nat)
    requires r != "" && CapPolicy(p) && op.Admit? && NetKept(p, r, w)
    ensures NetKept(p, r, Operated(p, Run(r), w, op, now))
  {
    hide RunLimit, AdmitCall, Within;
    var l, st := w.ledger, RunOf(w.ctl, r);
    RunBounds.AdmitRun(p, w.ctl, op.run, op.key, op.bypass, now, r);
    if w.ctl.killed {
      KilledRefuses(p, w.ctl, op, now);
    }
    OneAdmitted(p.floor, Rounded(p.maxSpend), l.spent, l.admitted, Given(p.floor, l.recorded, l.released, l.bypassed),
                l.clearances, Showing(p.floor, st.spend, st.inflight));
    assert Given(p.floor, l.recorded, l.released, l.bypassed + 1)
        == Given(p.floor, l.recorded, l.released, l.bypassed) + p.floor;
    assert Showing(p.floor, st.spend, st.inflight + 1) == Showing(p.floor, st.spend, st.inflight) + p.floor;
    if RunLimit(p, st) == NoReason {
      RunBounds.UnderServerCap(p, st);
    }
  }

  lemma NetSettled(p: Policy, r: string, w: World, op: Op, now: nat)
    requires r != "" && CapPolicy(p) && WithinFloor(p, op) && (op.Record? || op.Release?) && NetKept(p, r, w)
    ensures NetKept(p, r, Operated(p, Run(r), w, op, now))
  {
    hide Core, Within;
    var l, st, f := w.ledger, RunOf(w.ctl, r), p.floor;
    var cost := if op.Record? then op.cost else 0.0;
    var given := Given(f, l.recorded, l.released, l.bypassed);
    if op.Record? {
      RunBounds.RecordRunEffect(p, w.ctl, op.run, op.key, op.cost, op.loop, now, r);
    } else {
      RunBounds.OtherRun(p, w.ctl, op, now, r);
    }
    OneLess(f, st.spend, st.inflight, cost);
    OneSettled(f, Rounded(p.maxSpend), l.spent, l.admitted, given, l.clearances, Showing(f, st.spend, st.inflight), cost,
               Showing(f, st.spend + cost, Dec(st.inflight)));
    assert Given(f, l.recorded + 1, l.released, l.bypassed) == given + f;
    assert Given(f, l.recorded, l.released + 1, l.bypassed) == given + f;
    assert Copies(st.calls + 1, f) == Copies(st.calls, f) + f;
  }

  lemma NetCleared(p: Policy, r: string, w: World, w': World)
    requires CapPolicy(p) && NetKept(p, r, w)
    requires var st := RunOf(w'.ctl, r); st.calls == 0 && st.inflight == 0 && st.spend == 0.0 && st.cap >= 0.0
    requires w'.ledger == w.ledger.(clearances := w.ledger.clearances + 1, resumes := w'.ledger.resumes)
    ensures NetKept(p, r, w')
  {
    hide Within;
    var l, st := w.ledger, RunOf(w.ctl, r);
    MicroMonotone(0.0, p.maxSpend);
    Cleared(p.floor, Rounded(p.maxSpend), l.spent, l.admitted, Given(p.floor, l.recorded, l.released, l.bypassed),
            l.clearances, Showing(p.floor, st.spend, st.inflight));
  }

  lemma NetOperated(p: Policy, r: string, w: World, op: Op, now: nat)
    requires r != "" && CapPolicy(p) && WithinFloor(p, op) && NetKept(p, r, w)
    ensures NetKept(p, r, Operated(p, Run(r), w, op, now))
  {
    hide Core, Within, Showing, Given, CapPolicy;
    match op {
      case Admit(_, _, _) => NetAdmitted(p, r, w, op, now);
      case Record(_, _, _, _) => NetSettled(p, r, w, op, now);
      case Release(_, _) => NetSettled(p, r, w, op, now);
      case ResumeRun(run) =>
        RunBounds.OtherRun(p, w.ctl, op, now, r);
        if run == r && RunIsPaused(w.ctl, r) {
          NetCleared(p, r, w, Operated(p, Run(r), w, op, now));
        }
      case _ => RunBounds.OtherRun(p, w.ctl, op, now, r);
    }
  }

  lemma NetStep(p: Policy, r: string, w: World, e: Event)
    requires r != "" && CapPolicy(p) && WithinFloor(p, e.op) && NetKept(p, r, w)
    ensures NetKept(p, r, Next(p, Run(r), w, e))
  {
    hide Operated, Within, Showing, Given, CapPolicy, WithinFloor;
    var w1 := Operated(p, Run(r), w, e.op, e.now);
    NetOperated(p, r, w, e.op, e.now);
    if r in e.runVictims {
      NetCleared(p, r, w1, Dropped(w1, Run(r), e));
    }
  }

  lemma NetFresh(p: Policy, r: string, w: World)
    requires CapPolicy(p) && RunBounds.Untouched(r, w)
    ensures NetKept(p, r, w)
  {
    MicroMonotone(0.0, p.maxSpend);
    assert Copies(1, Rounded(p.maxSpend) + p.floor) == Rounded(p.maxSpend) + p.floor;
  }

  // The store.

  ghost predicate StoreNet(p: Policy, r: string, s: Store.State) {
    var h, log := Store.HashOf(s, r), s.log;
    var recorded, released := Count(log, Recording, Store.InRun(r)), Count(log, Giveback, Store.InRun(r));
    && 0.0 <= h.spend as real <= Copies(h.calls, p.floor)
    && Within(p.floor, Rounded(p.maxSpend), Sum(log, Store.InRun(r)) as real, Count(log, Admission, Store.InRun(r)),
              Given(p.floor, recorded, released, Count(log, Forced, Store.InRun(r))),
              Count(log, Wipe, Store.InRun(r)), Showing(p.floor, h.spend as real, h.inflight))
  }

  lemma StoreFrame(p: Policy, r: string, s: Store.State, s': Store.State)
    requires StoreNet(p, r, s) && s'.log == s.log
    requires Bare(Store.HashOf(s', r)) == Bare(Store.HashOf(s, r))
    ensures StoreNet(p, r, s')
  {
  }

  /** The script admits a call only while the run's projected spend is below the server-wide cap. */
  lemma UnderStoreCap(p: Policy, h: Store.RunHash)
    requires CapPolicy(p) && Store.RunCode(Store.LimitsOf(p), h) == Store.NoCode
    requires 0.0 <= h.spend as real <= Copies(h.calls, p.floor)
    ensures Showing(p.floor, h.spend as real, h.inflight) < Rounded(p.maxSpend)
  {
    hide Projected, Micro;
    FloorIsReserved(p.floor, h.spend as real, h.calls, h.inflight);
  }

  lemma ReserveNet(p: Policy, r: string, s: Store.State, run: string, key: string, tok: Store.Token, forced: bool)
    requires r != "" && CapPolicy(p) && StoreNet(p, r, s)
    requires run == r && !forced ==> Store.RunCode(Store.LimitsOf(p), Store.HashOf(s, r)) == Store.NoCode
    ensures StoreNet(p, r, Store.Reserve(s, run, key, tok, forced))
  {
    hide Store.Reserve, Store.RunCode, Count, Sum, Within, CapPolicy;
    var h, log, f := Store.HashOf(s, r), s.log, p.floor;
    var recorded, released := Count(log, Recording, Store.InRun(r)), Count(log, Giveback, Store.InRun(r));
    var n := Count(log, Forced, Store.InRun(r));
    var given := Given(f, recorded, released, n);
    LogGrows(log, Store.Admitted(run, key, tok, forced), Store.InRun(r));
    ReserveEffect(s, run, key, tok, forced, r);
    assert f >= 0.0 by { FloorNotNegative(p); }
    OneAdmitted(f, Rounded(p.maxSpend), Sum(log, Store.InRun(r)) as real, Count(log, Admission, Store.InRun(r)),
                given, Count(log, Wipe, Store.InRun(r)), Showing(f, h.spend as real, h.inflight));
    assert Given(f, recorded, released, n + 1) == given + f;
    assert Showing(f, h.spend as real, h.inflight + 1) == Showing(f, h.spend as real, h.inflight) + f;
    if run == r && !forced {
      UnderStoreCap(p, h);
    }
  }

  lemma FloorNotNegative(p: Policy)
    requires CapPolicy(p)
    ensures p.floor >= 0.0 && Rounded(p.maxSpend) > 0.0
  {
  }

  lemma MarkNet(p: Policy, r: string, s: Store.State, run: string, key: string, tok: Store.Token, code: Store.Code)
    requires r != "" && StoreNet(p, r, s)
    ensures StoreNet(p, r, Store.MarkAdmit(s, run, key, tok, Store.Refused(code)))
  {
  }

  lemma AdmitNet(p: Policy, r: string, s: Store.State, run: string, key: string, mode: Store.Mode, today: nat, tok: Store.Token)
    requires r != "" && (run != "" || key != "") && CapPolicy(p) && mode != Store.Shadowing && StoreNet(p, r, s)
    ensures StoreNet(p, r, Store.Admit(Store.LimitsOf(p), s, run, key, mode, today, tok).0)
  {
    hide StoreNet, CapPolicy, Store.Reserve, Store.PauseRun, Store.PauseKey, Store.RollKey, Store.RunCode, Store.KeyCode;
    var l, s1 := Store.LimitsOf(p), Store.RollKey(s, key, today);
    RollEffect(s, key, today, r);
    StoreFrame(p, r, s, s1);
    if tok !in Store.TokensAt(s, run, key, tok).admits && !s.killed {
      var v := Store.VerdictOf(l, s1, run, key, mode);
      if v.StopsKey? {
        PauseEffect(s1, run, key, v.code, r);
        StoreFrame(p, r, s1, Store.PauseKey(s1, key, v.code));
        MarkNet(p, r, Store.PauseKey(s1, key, v.code), run, key, tok, v.code);
      } else if v.StopsRun? {
        PauseEffect(s1, run, key, v.code, r);
        StoreFrame(p, r, s1, Store.PauseRun(s1, run, v.code));
        MarkNet(p, r, Store.PauseRun(s1, run, v.code), run, key, tok, v.code);
      } else if v.Free? || mode != Store.Deciding {
        ReserveNet(p, r, s1, run, key, tok, mode == Store.Bypassing);
      }
    }
  }

  lemma SettleNet(p: Policy, r: string, s: Store.State, cmd: Store.Command, today: nat)
    requires r != "" && CapPolicy(p) && Affordable(p, cmd) && StoreNet(p, r, s)
    requires Store.IsSettlement(cmd) && !Store.IsSettled(s, cmd.run, cmd.key, cmd.tok)
    ensures StoreNet(p, r, Store.Exec(Store.LimitsOf(p), s, cmd, today))
  {
    hide Store.Record, Store.Release, Count, Sum, Within, CapPolicy;
    var h, log, f := Store.HashOf(s, r), s.log, p.floor;
    var recorded, released := Count(log, Recording, Store.InRun(r)), Count(log, Giveback, Store.InRun(r));
    var n := Count(log, Forced, Store.InRun(r));
    var cost := if cmd.DoRecord? then cmd.cost else 0;
    FloorNotNegative(p);
    if cmd.DoRecord? {
      RecordEffect(Store.LimitsOf(p), s, cmd.run, cmd.key, cmd.cost, cmd.loop, today, cmd.tok, r);
      LogGrows(log, Store.Recorded(cmd.run, cmd.key, cmd.tok, cmd.cost), Store.InRun(r));
    } else {
      ReleaseEffect(s, cmd.run, cmd.key, cmd.tok, r);
      LogGrows(log, Store.Released(cmd.run, cmd.key, cmd.tok), Store.InRun(r));
    }
    OneLess(f, h.spend as real, h.inflight, cost as real);
    OneSettled(f, Rounded(p.maxSpend), Sum(log, Store.InRun(r)) as real, Count(log, Admission, Store.InRun(r)),
               Given(f, recorded, released, n), Count(log, Wipe, Store.InRun(r)),
               Showing(f, h.spend as real, h.inflight), cost as real,
               Showing(f, h.spend as real + cost as real, Dec(h.inflight)));
    assert Given(f, recorded + 1, released, n) == Given(f, recorded, released, n) + f;
    assert Given(f, recorded, released + 1, n) == Given(f, recorded, released, n) + f;
    assert Copies(h.calls + 1, f) == Copies(h.calls, f) + f;
  }

  lemma ResumeNet(p: Policy, r: string, s: Store.State, run: string)
    requires r != "" && CapPolicy(p) && StoreNet(p, r, s)
    ensures StoreNet(p, r, Store.ResumeRun(s, run))
  {
    hide Count, Sum, Within, CapPolicy;
    var h, log, f := Store.HashOf(s, r), s.log, p.floor;
    LogGrows(log, Store.Wiped(run), Store.InRun(r));
    FloorNotNegative(p);
    Cleared(f, Rounded(p.maxSpend), Sum(log, Store.InRun(r)) as real, Count(log, Admission, Store.InRun(r)),
            Given(f, Count(log, Recording, Store.InRun(r)), Count(log, Giveback, Store.InRun(r)),
                  Count(log, Forced, Store.InRun(r))),
            Count(log, Wipe, Store.InRun(r)), Showing(f, h.spend as real, h.inflight));
  }

  lemma ExecNet(p: Policy, r: string, s: Store.State, cmd: Store.Command, today: nat)
    requires r != "" && CapPolicy(p) && Affordable(p, cmd) && StoreNet(p, r, s)
    ensures StoreNet(p, r, Store.Exec(Store.LimitsOf(p), s, cmd, today))
  {
    hide StoreNet, CapPolicy, Store.Record, Store.Release, Store.ResumeRun, Affordable;
    match cmd {
      case DoResumeRun(run) => ResumeNet(p, r, s, run);
      case DoRecord(_, _, _, _, _) => SettlementNet(p, r, s, cmd, today);
      case DoRelease(_, _, _) => SettlementNet(p, r, s, cmd, today);
      case _ => StoreFrame(p, r, s, Store.Exec(Store.LimitsOf(p), s, cmd, today));
    }
  }

  lemma SettlementNet(p: Policy, r: string, s: Store.State, cmd: Store.Command, today: nat)
    requires r != "" && CapPolicy(p) && Affordable(p, cmd) && StoreNet(p, r, s) && (cmd.DoRecord? || cmd.DoRelease?)
    ensures StoreNet(p, r, Store.Exec(Store.LimitsOf(p), s, cmd, today))
  {
    hide StoreNet, CapPolicy, Affordable, Store.Exec;
    if Store.IsSettlement(cmd) && !Store.IsSettled(s, cmd.run, cmd.key, cmd.tok) {
      SettleNet(p, r, s, cmd, today);
    } else {
      Repeated(Store.LimitsOf(p), s, cmd, today);
    }
  }

  // The replicas.

  ghost predicate FallbackNet(p: Policy, r: string, f: Fallback) {
    NetKept(p, r, World(f.ctl, f.ledger))
  }

  ghost predicate ReplicaNet(p: Policy, r: string, rep: Replica) {
    forall f <- rep.fallbacks :: FallbackNet(p, r, f)
  }

  lemma SeedNet(p: Policy, r: string, f: Fallback)
    requires CapPolicy(p) && f.ledger == NEW_LEDGER && Seed(f.ctl, f.ctl.killed)
    ensures FallbackNet(p, r, f)
  {
    hide CapPolicy, NetKept;
    NetFresh(p, r, World(f.ctl, NEW_LEDGER));
  }

  lemma KilledNet(p: Policy, r: string, f: Fallback, on: bool)
    requires FallbackNet(p, r, f)
    ensures FallbackNet(p, r, f.(ctl := f.ctl.(killed := on)))
  {
  }

  lemma DecisionNet(p: Policy, r: string, f: Fallback, e: Event)
    requires r != "" && CapPolicy(p) && WithinFloor(p, e.op) && FallbackNet(p, r, f)
    ensures var w := Next(p, Run(r), World(f.ctl, f.ledger), e); FallbackNet(p, r, f.(ctl := w.ctl, ledger := w.ledger))
  {
    hide Next, NetKept, CapPolicy;
    NetStep(p, r, World(f.ctl, f.ledger), e);
  }

  lemma DescendantNet(p: Policy, r: string, rep: Replica, m: Move, f: Fallback)
    requires r != "" && CapPolicy(p) && ReplicaNet(p, r, rep) && (m.Decides? ==> WithinFloor(p, m.e.op))
    requires ClusterBounds.Descends(p, Run(r), rep, m, f)
    ensures FallbackNet(p, r, f)
  {
    hide Seed, FallbackNet, Next, CapPolicy, WithinFloor;
    if f.ledger == NEW_LEDGER && Seed(f.ctl, f.ctl.killed) {
      SeedNet(p, r, f);
    } else if f !in rep.fallbacks {
      if g :| g in rep.fallbacks && f == g.(ctl := g.ctl.(killed := f.ctl.killed)) {
        KilledNet(p, r, g, f.ctl.killed);
      } else {
        DecisionNet(p, r, rep.fallbacks[m.i], m.e);
      }
    }
  }

  lemma MoveNet(p: Policy, r: string, rep: Replica, m: Move)
    requires r != "" && CapPolicy(p) && ReplicaNet(p, r, rep) && CanMove(rep, m)
    requires m.Decides? ==> WithinFloor(p, m.e.op)
    ensures ReplicaNet(p, r, Moved(p, Run(r), rep, m))
  {
    hide FallbackNet, CanMove, Moved, CapPolicy, WithinFloor, ClusterBounds.Descends;
    forall f | f in Moved(p, Run(r), rep, m).fallbacks ensures FallbackNet(p, r, f) {
      ClusterBounds.FallbacksDescend(p, Run(r), rep, m, f);
      DescendantNet(p, r, rep, m, f);
    }
  }

  // The whole.

  ghost predicate SpendBounded(p: Policy, r: string, c: Cluster) {
    && StoreNet(p, r, c.store) && CostsKept(p, c)
    && forall i :: 0 <= i < |c.replicas| ==> ReplicaNet(p, r, c.replicas[i])
  }

  lemma StoreMoveNet(p: Policy, r: string, s: Store.State, rep: Replica, m: Move, today: nat)
    requires r != "" && CapPolicy(p) && CanMove(rep, m) && QueueCheap(p, rep.queue) && StoreNet(p, r, s)
    ensures StoreNet(p, r, StoreAfter(p, s, rep, m, today))
  {
    hide Store.Exec, CanRecover, CanSwitch, Within, Count, Sum, Affordable, CapPolicy;
    if TakesHead(m) {
      assert rep.queue.batch[0] in rep.queue.batch;
      ExecNet(p, r, s, rep.queue.batch[0].cmd, today);
    }
  }

  lemma ActNet(p: Policy, r: string, c: Cluster, a: Act)
    requires r != "" && CapPolicy(p) && CanAct(c, a) && Cheap(p, a) && SpendBounded(p, r, c)
    ensures SpendBounded(p, r, Acted(p, Run(r), c, a))
  {
    ActCheap(p, Run(r), c, a);
    assert a.OnReplica? ==> QueueCheap(p, c.replicas[a.i].queue);
    assert CallsCheap(p, c);
    hide StoreNet, CostsKept, QueueCheap, CallsCheap, FallbackNet, CapPolicy, Affordable, WithinFloor;
    hide Store.Exec, Store.Admit, StoreAfter, Moved, CanMove, Enqueued;
    match a {
      case Arrive(tok, today) =>
        var ask := c.drawn[tok];
        DecidingOrForced(p, ask.bypass);
        AdmitNet(p, r, c.store, ask.run, ask.key, Store.ModeOf(p, ask.bypass), today, tok);
      case Settle(tok, fate, today) =>
        CallCommand(p, c, tok);
        ExecNet(p, r, c.store, CommandOf(c.drawn[tok], tok, c.calls[tok].closing), today);
      case OnReplica(i, m, today) =>
        StoreMoveNet(p, r, c.store, c.replicas[i], m, today);
        MoveNet(p, r, c.replicas[i], m);
      case Ordered(cmd, today) =>
        OrdersCostNothing(p, cmd);
        ExecNet(p, r, c.store, cmd, today);
      case _ =>
    }
  }

  lemma DecidingOrForced(p: Policy, bypass: bool)
    requires CapPolicy(p)
    ensures Store.ModeOf(p, bypass) != Store.Shadowing
  {
  }

  lemma {:induction false} PlayNet(p: Policy, r: string, c: Cluster, acts: seq<Act>)
    requires r != "" && CapPolicy(p) && CanUnfold(p, Run(r), c, acts) && AllCheap(p, acts) && SpendBounded(p, r, c)
    ensures SpendBounded(p, r, Unfolded(p, Run(r), c, acts))
    decreases |acts|
  {
    hide Acted, CanAct, SpendBounded, CapPolicy, Cheap;
    if acts != [] {
      ActNet(p, r, c, acts[0]);
      PlayNet(p, r, Acted(p, Run(r), c, acts[0]), acts[1..]);
    }
  }

  lemma BeginNet(p: Policy, r: string, c: Cluster)
    requires CapPolicy(p) && Begins(c)
    ensures SpendBounded(p, r, c)
  {
    BeginCheap(p, c);
    hide Seed, CapPolicy, FallbackNet, CostsKept;
    forall i | 0 <= i < |c.replicas| ensures ReplicaNet(p, r, c.replicas[i]) {
      var f := c.replicas[i].fallbacks[0];
      ClusterBounds.SeedsOwnSwitch(f.ctl, false);
      SeedNet(p, r, f);
    }
    EmptyStoreNet(p, r);
  }

  lemma EmptyStoreNet(p: Policy, r: string)
    requires CapPolicy(p)
    ensures StoreNet(p, r, Store.EMPTY_STORE)
  {
    assert Copies(1, Rounded(p.maxSpend) + p.floor) == Rounded(p.maxSpend) + p.floor;
  }

  // The sums.

  /** Dollars of the watched run these fallbacks recorded. */
  function SpentBy(fs: seq<Fallback>): real {
    if fs == [] then 0.0 else fs[0].ledger.spent + SpentBy(fs[1..])
  }

  /** Calls of it they admitted, less those they were told ended. */
  function OutBy(fs: seq<Fallback>): int {
    if fs == [] then 0
    else fs[0].ledger.admitted - fs[0].ledger.recorded - fs[0].ledger.released + OutBy(fs[1..])
  }

  /** A cap for each of them, and one more for each resume or eviction. */
  function CapsOf(fs: seq<Fallback>): nat {
    if fs == [] then 0 else fs[0].ledger.clearances + 1 + CapsOf(fs[1..])
  }

  function ForcedBy(fs: seq<Fallback>): nat {
    if fs == [] then 0 else fs[0].ledger.bypassed + ForcedBy(fs[1..])
  }

  lemma OneFallback(p: Policy, r: string, f: Fallback)
    requires CapPolicy(p) && FallbackNet(p, r, f)
    ensures
      var l := f.ledger;
      l.spent + p.floor * (l.admitted - l.recorded - l.released) as real
      < (Rounded(p.maxSpend) + p.floor) * (l.clearances + 1) as real + p.floor * l.bypassed as real
  {
    hide Within, Given, CapPolicy;
    FloorNotNegative(p);
    var l, st := f.ledger, RunOf(f.ctl, r);
    InProducts(p.floor, Rounded(p.maxSpend), l.spent, l.admitted, l.recorded, l.released, l.bypassed, l.clearances,
               Showing(p.floor, st.spend, st.inflight));
  }

  lemma {:induction false} FallbacksTogether(p: Policy, r: string, fs: seq<Fallback>)
    requires CapPolicy(p) && forall f <- fs :: FallbackNet(p, r, f)
    ensures SpentBy(fs) + p.floor * OutBy(fs) as real
         <= (Rounded(p.maxSpend) + p.floor) * CapsOf(fs) as real + p.floor * ForcedBy(fs) as real
  {
    hide FallbackNet, CapPolicy;
    if fs != [] {
      var l := fs[0].ledger;
      OneFallback(p, r, fs[0]);
      FallbacksTogether(p, r, fs[1..]);
      Added(p.floor, Rounded(p.maxSpend) + p.floor, l.admitted - l.recorded - l.released, OutBy(fs[1..]),
            l.clearances + 1, CapsOf(fs[1..]), l.bypassed, ForcedBy(fs[1..]));
    }
  }

  /** The store's calls out are its open tokens. */
  lemma StoreAlone(p: Policy, r: string, c: Cluster)
    requires CapPolicy(p) && Exact(c, Store.InRun(r)) && StoreNet(p, r, c.store)
    ensures
      var log := c.store.log;
      Sum(log, Store.InRun(r)) as real + p.floor * |OpenTokens(Store.HashOf(c.store, r).tokens)| as real
      < (Rounded(p.maxSpend) + p.floor) * (Count(log, Wipe, Store.InRun(r)) + 1) as real
        + p.floor * Count(log, Forced, Store.InRun(r)) as real
  {
    hide Within, Given, CapPolicy, Count, Sum, QueuesTrue, AsksTrue, CallsTrue, AllHeld, HistoryTrue;
    FloorNotNegative(p);
    var log, h, t := c.store.log, Store.HashOf(c.store, r), Store.HashOf(c.store, r).tokens;
    InProducts(p.floor, Rounded(p.maxSpend), Sum(log, Store.InRun(r)) as real, Count(log, Admission, Store.InRun(r)),
               Count(log, Recording, Store.InRun(r)), Count(log, Giveback, Store.InRun(r)),
               Count(log, Forced, Store.InRun(r)), Count(log, Wipe, Store.InRun(r)),
               Showing(p.floor, h.spend as real, h.inflight));
    assert ServedTokens(t) == OpenTokens(t) + t.settled;
    assert |ServedTokens(t)| == |OpenTokens(t)| + |t.settled|;
  }

  /** What the store and every fallback have recorded of the run. */
  function Recorded(r: string, c: Cluster): real {
    Sum(c.store.log, Store.InRun(r)) as real + SpentBy(ClusterBounds.FallbacksOf(c.replicas))
  }

  /** Its calls out: tokens open in the store, and what fallbacks admitted and have not been told ended. */
  function CallsOut(r: string, c: Cluster): int {
    |OpenTokens(Store.HashOf(c.store, r).tokens)| + OutBy(ClusterBounds.FallbacksOf(c.replicas))
  }

  /** A cap for the store and each fallback, and one more for each resume or eviction there. */
  function Caps(r: string, c: Cluster): nat {
    Count(c.store.log, Wipe, Store.InRun(r)) + 1 + CapsOf(ClusterBounds.FallbacksOf(c.replicas))
  }

  function ForcedCalls(r: string, c: Cluster): nat {
    Count(c.store.log, Forced, Store.InRun(r)) + ForcedBy(ClusterBounds.FallbacksOf(c.replicas))
  }

  lemma {:induction false} AllNet(p: Policy, r: string, reps: seq<Replica>)
    requires forall i :: 0 <= i < |reps| ==> ReplicaNet(p, r, reps[i])
    ensures forall f <- ClusterBounds.FallbacksOf(reps) :: FallbackNet(p, r, f)
  {
    hide FallbackNet;
    if reps != [] {
      assert ReplicaNet(p, r, reps[0]);
      AllNet(p, r, reps[1..]);
    }
  }

  lemma Together(p: Policy, r: string, c: Cluster)
    requires CapPolicy(p) && Exact(c, Store.InRun(r)) && SpendBounded(p, r, c)
    ensures Recorded(r, c) + p.floor * CallsOut(r, c) as real
          < (Rounded(p.maxSpend) + p.floor) * Caps(r, c) as real + p.floor * ForcedCalls(r, c) as real
  {
    hide Exact, StoreNet, CostsKept, ReplicaNet, FallbackNet, CapPolicy, Count, Sum,
         OpenTokens, ClusterBounds.FallbacksOf, SpentBy, OutBy, CapsOf, ForcedBy;
    var fs, log := ClusterBounds.FallbacksOf(c.replicas), c.store.log;
    AllNet(p, r, c.replicas);
    FallbacksTogether(p, r, fs);
    StoreAlone(p, r, c);
    Added(p.floor, Rounded(p.maxSpend) + p.floor, |OpenTokens(Store.HashOf(c.store, r).tokens)|, OutBy(fs),
          Count(log, Wipe, Store.InRun(r)) + 1, CapsOf(fs),
          Count(log, Forced, Store.InRun(r)), ForcedBy(fs));
  }

  /**
    The cluster-wide spend bound: if no call costs more than the floor it is reserved at, then over
    every interleaving of replicas, gaps, recoveries, lost answers, repeats and late admissions, the
    dollars the store and every fallback ever built have recorded for a run, with a floor for
    each call out, stay below one cap and one floor for the store and for each of them, the same again
    for each time one was resumed or evicted, and a floor for each call forced through.
   */
  lemma {:induction false} ClusterSpendBound(p: Policy, r: string, start: Cluster, acts: seq<Act>, c: Cluster)
    requires r != "" && CapPolicy(p) && AllCheap(p, acts)
    requires Begins(start) && CanUnfold(p, Run(r), start, acts) && c == Unfolded(p, Run(r), start, acts)
    ensures Recorded(r, c) + p.floor * CallsOut(r, c) as real
          < (Rounded(p.maxSpend) + p.floor) * Caps(r, c) as real + p.floor * ForcedCalls(r, c) as real
  {
    assert Store.IsPlace(Store.InRun(r));
    hide *;
    BeginExact(start, Store.InRun(r));
    Exactness.PlayKeeps(p, Run(r), Store.InRun(r), start, acts);
    BeginNet(p, r, start);
    PlayNet(p, r, start, acts);
    Together(p, r, c);
  }
}

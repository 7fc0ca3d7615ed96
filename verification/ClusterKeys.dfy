/**
  A key's total cap across a whole cluster: dollars recorded for the key in the store and by every
  fallback ever built, with a floor for each call out, against one cap and one floor for each of
  them.
 */
module ClusterKeys {
  import opened Control
  import opened Histories
  import opened Money
  import opened Nets
  import opened Replica
  import opened Clusters
  import opened Costs
  import ClusterBounds
  import ClusterPauses
  import KeyBounds
  import Store
  import StoreKeys

  // A fallback.

  ghost predicate KeyNet(p: Policy, k: string, w: World) {
    var t := KeyBounds.TotalsOf(w.ctl, k);
    TotalNet(p.floor, Rounded(p.maxKey), w.ledger, t.0, t.2, t.1)
  }

  lemma RollNet(p: Policy, k: string, w: World, now: nat)
    requires StoreKeys.TotalPolicy(p) && KeyNet(p, k, w)
    ensures
      var t, l := KeyBounds.RolledTotals(w.ctl, k, now), Rolled(w.ctl, k, now, w.ledger);
      TotalNet(p.floor, Rounded(p.maxKey), l, t.0, t.2, t.1)
  {
    hide TotalNet;
    var t, l, lost := KeyBounds.TotalsOf(w.ctl, k), w.ledger, LostAtMidnight(w.ctl, k, now);
    StoreKeys.FloorAndCap(p);
    TotalWiped(p.floor, Rounded(p.maxKey), l, t.0, t.2, t.1, lost);
    SameNet(p, l.(wiped := l.wiped + lost), Rolled(w.ctl, k, now, l), t.0, t.2, t.1 - lost);
  }

  /** Calls out, resumes and midnights are no part of the inequality. */
  lemma SameNet(p: Policy, l: Ledger, l': Ledger, calls: nat, spend: real, inflight: nat)
    requires TotalNet(p.floor, Rounded(p.maxKey), l, calls, spend, inflight)
    requires l' == l.(out := l'.out, resumes := l'.resumes, midnights := l'.midnights)
    ensures TotalNet(p.floor, Rounded(p.maxKey), l', calls, spend, inflight)
  {
  }

  lemma AdmittedNet(p: Policy, k: string, w: World, op: Op, now: nat)
    requires k != "" && StoreKeys.TotalPolicy(p) && op.Admit? && KeyNet(p, k, w)
    ensures KeyNet(p, k, Operated(p, Key(k), w, op, now))
  {
    hide AdmitCall, TotalNet, KeyBounds.BelowTotalCap;
    KeyBounds.AdmitKey(p, w.ctl, op.run, op.key, op.bypass, now, k);
    RollNet(p, k, w, now);
    StoreKeys.FloorAndCap(p);
    var f, cap := p.floor, Rounded(p.maxKey);
    var t, l := KeyBounds.RolledTotals(w.ctl, k, now), Rolled(w.ctl, k, now, w.ledger);
    TotalAdmitted(f, cap, l, t.0, t.2, t.1);
    if op.key == k && !w.ctl.killed {
      var l' := Operated(p, Key(k), w, op, now).ledger;
      if Core(p, w.ctl, op, now).reply.ok {
        if op.bypass {
          SameNet(p, l.(admitted := l.admitted + 1, bypassed := l.bypassed + 1), l', t.0, t.2, t.1 + 1);
        } else {
          Below(p, l, t);
          SameNet(p, l.(admitted := l.admitted + 1), l', t.0, t.2, t.1 + 1);
        }
      }
    }
  }

  lemma Below(p: Policy, l: Ledger, t: (nat, nat, real))
    requires StoreKeys.TotalPolicy(p) && KeyBounds.BelowTotalCap(p, t)
    requires TotalNet(p.floor, Rounded(p.maxKey), l, t.0, t.2, t.1)
    ensures Showing(p.floor, t.2, t.1) < Rounded(p.maxKey)
  {
    KeyBounds.UnderTotalCap(p, t);
  }

  lemma SettledNet(p: Policy, k: string, w: World, op: Op, now: nat)
    requires k != "" && StoreKeys.TotalPolicy(p) && WithinFloor(p, op) && (op.Record? || op.Release?) && KeyNet(p, k, w)
    ensures KeyNet(p, k, Operated(p, Key(k), w, op, now))
  {
    hide Core, TotalNet;
    var f, cap, l' := p.floor, Rounded(p.maxKey), Operated(p, Key(k), w, op, now).ledger;
    StoreKeys.FloorAndCap(p);
    if op.Record? {
      var t, l := KeyBounds.RolledTotals(w.ctl, k, now), Rolled(w.ctl, k, now, w.ledger);
      RollNet(p, k, w, now);
      KeyBounds.RecordKeyEffect(p, w.ctl, op.run, op.key, op.cost, op.loop, now, k);
      TotalSettled(f, cap, l, t.0, t.2, t.1, op.cost);
      if op.key == k {
        SameNet(p, l.(recorded := l.recorded + 1, spent := l.spent + op.cost), l', t.0 + 1, t.2 + op.cost, Dec(t.1));
      }
    } else {
      var t, l := KeyBounds.TotalsOf(w.ctl, k), w.ledger;
      KeyBounds.OtherKey(p, w.ctl, op, now, k);
      TotalSettled(f, cap, l, t.0, t.2, t.1, 0.0);
      if op.key == k {
        SameNet(p, l.(released := l.released + 1), l', t.0, t.2, Dec(t.1));
      }
    }
  }

  lemma ClearedNet(p: Policy, k: string, w: World, w': World)
    requires StoreKeys.TotalPolicy(p) && KeyNet(p, k, w) && KeyBounds.TotalsOf(w'.ctl, k) == (0, 0, 0.0)
    requires w'.ledger == w.ledger.(clearances := w.ledger.clearances + 1, resumes := w'.ledger.resumes)
    ensures KeyNet(p, k, w')
  {
    hide TotalNet;
    var t, l := KeyBounds.TotalsOf(w.ctl, k), w.ledger;
    StoreKeys.FloorAndCap(p);
    TotalCleared(p.floor, Rounded(p.maxKey), l, t.0, t.2, t.1);
    SameNet(p, l.(clearances := l.clearances + 1), w'.ledger, 0, 0.0, 0);
  }

  lemma ResumedNet(p: Policy, k: string, w: World, now: nat)
    requires k != "" && StoreKeys.TotalPolicy(p) && KeyNet(p, k, w)
    ensures KeyNet(p, k, Operated(p, Key(k), w, ResumeKey(k), now))
  {
    hide Core, TotalNet;
    var t, l, w' := KeyBounds.TotalsOf(w.ctl, k), w.ledger, Operated(p, Key(k), w, ResumeKey(k), now);
    StoreKeys.FloorAndCap(p);
    KeyBounds.OtherKey(p, w.ctl, ResumeKey(k), now, k);
    if KeyIsPaused(w.ctl, k) {
      if w.ctl.keys[k].dayPause {
        TotalWiped(p.floor, Rounded(p.maxKey), l, t.0, t.2, t.1, t.1);
        SameNet(p, l.(wiped := l.wiped + t.1), w'.ledger, t.0, t.2, 0);
      } else {
        ClearedNet(p, k, w, w');
      }
    }
  }

  lemma OperatedNet(p: Policy, k: string, w: World, op: Op, now: nat)
    requires k != "" && StoreKeys.TotalPolicy(p) && WithinFloor(p, op) && KeyNet(p, k, w)
    ensures KeyNet(p, k, Operated(p, Key(k), w, op, now))
  {
    hide Core, TotalNet, StoreKeys.TotalPolicy;
    match op {
      case Admit(_, _, _) => AdmittedNet(p, k, w, op, now);
      case Record(_, _, _, _) => SettledNet(p, k, w, op, now);
      case Release(_, _) => SettledNet(p, k, w, op, now);
      case ResumeKey(key) =>
        if key == k {
          ResumedNet(p, k, w, now);
        } else {
          KeyBounds.OtherKey(p, w.ctl, op, now, k);
        }
      case NoteKey(_) =>
        RollNet(p, k, w, now);
        KeyBounds.OtherKey(p, w.ctl, op, now, k);
      case _ => KeyBounds.OtherKey(p, w.ctl, op, now, k);
    }
  }

  lemma StepNet(p: Policy, k: string, w: World, e: Event)
    requires k != "" && StoreKeys.TotalPolicy(p) && WithinFloor(p, e.op) && KeyNet(p, k, w)
    ensures KeyNet(p, k, Next(p, Key(k), w, e))
  {
    hide Operated, TotalNet, StoreKeys.TotalPolicy, WithinFloor;
    var w1 := Operated(p, Key(k), w, e.op, e.now);
    OperatedNet(p, k, w, e.op, e.now);
    if k in e.keyVictims {
      ClearedNet(p, k, w1, Dropped(w1, Key(k), e));
    }
  }

  // The replicas.

  ghost predicate FallbackNet(p: Policy, k: string, f: Fallback) {
    KeyNet(p, k, World(f.ctl, f.ledger))
  }

  ghost predicate ReplicaNet(p: Policy, k: string, rep: Replica) {
    forall f <- rep.fallbacks :: FallbackNet(p, k, f)
  }

  lemma SeedNet(p: Policy, k: string, f: Fallback)
    requires StoreKeys.TotalPolicy(p) && f.ledger == NEW_LEDGER && Seed(f.ctl, f.ctl.killed)
    ensures FallbackNet(p, k, f)
  {
    StoreKeys.FloorAndCap(p);
    TotalFresh(p.floor, Rounded(p.maxKey));
    hide TotalNet, StoreKeys.TotalPolicy;
    assert KeyBounds.TotalsOf(f.ctl, k) == (0, 0, 0.0);
  }

  lemma DescendantNet(p: Policy, k: string, rep: Replica, m: Move, f: Fallback)
    requires k != "" && StoreKeys.TotalPolicy(p) && ReplicaNet(p, k, rep) && (m.Decides? ==> WithinFloor(p, m.e.op))
    requires ClusterBounds.Descends(p, Key(k), rep, m, f)
    ensures FallbackNet(p, k, f)
  {
    hide Seed, Next, StoreKeys.TotalPolicy, TotalNet, WithinFloor;
    if f.ledger == NEW_LEDGER && Seed(f.ctl, f.ctl.killed) {
      SeedNet(p, k, f);
    } else if f !in rep.fallbacks {
      if g :| g in rep.fallbacks && f == g.(ctl := g.ctl.(killed := f.ctl.killed)) {
        assert FallbackNet(p, k, g);
      } else {
        var g := rep.fallbacks[m.i];
        assert FallbackNet(p, k, g);
        StepNet(p, k, World(g.ctl, g.ledger), m.e);
      }
    }
  }

  lemma MoveNet(p: Policy, k: string, rep: Replica, m: Move)
    requires k != "" && StoreKeys.TotalPolicy(p) && ReplicaNet(p, k, rep) && CanMove(rep, m)
    requires m.Decides? ==> WithinFloor(p, m.e.op)
    ensures ReplicaNet(p, k, Moved(p, Key(k), rep, m))
  {
    hide FallbackNet, CanMove, Moved, StoreKeys.TotalPolicy, WithinFloor, ClusterBounds.Descends;
    forall f | f in Moved(p, Key(k), rep, m).fallbacks ensures FallbackNet(p, k, f) {
      ClusterBounds.FallbacksDescend(p, Key(k), rep, m, f);
      DescendantNet(p, k, rep, m, f);
    }
  }

  // Whole runs of a cluster: its fallbacks, and the scripts that reach its store.

  ghost predicate FallbacksBounded(p: Policy, k: string, c: Cluster) {
    forall i :: 0 <= i < |c.replicas| ==> ReplicaNet(p, k, c.replicas[i])
  }

  lemma ActNet(p: Policy, k: string, c: Cluster, a: Act)
    requires k != "" && StoreKeys.TotalPolicy(p) && CanAct(c, a) && Cheap(p, a) && FallbacksBounded(p, k, c)
    ensures FallbacksBounded(p, k, Acted(p, Key(k), c, a))
  {
    hide FallbackNet, StoreKeys.TotalPolicy, WithinFloor, Store.Exec, Store.Admit, StoreAfter, Moved, CanMove, Enqueued;
    if a.OnReplica? {
      MoveNet(p, k, c.replicas[a.i], a.m);
    }
  }

  lemma {:induction false} PlayNet(p: Policy, k: string, c: Cluster, acts: seq<Act>)
    requires k != "" && StoreKeys.TotalPolicy(p) && CanUnfold(p, Key(k), c, acts) && AllCheap(p, acts)
    requires FallbacksBounded(p, k, c)
    ensures FallbacksBounded(p, k, Unfolded(p, Key(k), c, acts))
    decreases |acts|
  {
    hide Acted, CanAct, FallbacksBounded, StoreKeys.TotalPolicy, Cheap;
    if acts != [] {
      ActNet(p, k, c, acts[0]);
      PlayNet(p, k, Acted(p, Key(k), c, acts[0]), acts[1..]);
    }
  }

  lemma ScriptSound(p: Policy, c: Cluster, a: Act)
    requires !p.shadow && CanAct(c, a) && CostsKept(p, c)
    ensures forall x <- ClusterPauses.ScriptOf(p, c, a) :: StoreKeys.Sound(p, x)
  {
    hide Affordable, CanRecover, CanSwitch;
    match a {
      case Settle(tok, _, _) => CallCommand(p, c, tok);
      case OnReplica(i, m, _) =>
        assert QueueCheap(p, c.replicas[i].queue);
        assert m.Steps? && m.step.Deliver? && m.step.delivery.Take? ==>
                 c.replicas[i].queue.batch[0] in c.replicas[i].queue.batch;
      case Ordered(cmd, _) => OrdersCostNothing(p, cmd);
      case _ =>
    }
  }

  lemma {:induction false} ScriptsSound(p: Policy, watched: Subject, c: Cluster, acts: seq<Act>)
    requires !p.shadow && CanUnfold(p, watched, c, acts) && AllCheap(p, acts) && CostsKept(p, c)
    ensures forall x <- ClusterPauses.ScriptsOf(p, watched, c, acts) :: StoreKeys.Sound(p, x)
    decreases |acts|
  {
    hide Acted, CanAct, CostsKept, Cheap, ClusterPauses.ScriptOf, StoreKeys.Sound;
    if acts != [] {
      ScriptSound(p, c, acts[0]);
      ActCheap(p, watched, c, acts[0]);
      ScriptsSound(p, watched, Acted(p, watched, c, acts[0]), acts[1..]);
    }
  }

  lemma BeginNet(p: Policy, k: string, c: Cluster)
    requires StoreKeys.TotalPolicy(p) && Begins(c)
    ensures FallbacksBounded(p, k, c)
  {
    hide Seed, StoreKeys.TotalPolicy, FallbackNet;
    forall i | 0 <= i < |c.replicas| ensures ReplicaNet(p, k, c.replicas[i]) {
      var f := c.replicas[i].fallbacks[0];
      ClusterBounds.SeedsOwnSwitch(f.ctl, false);
      SeedNet(p, k, f);
    }
  }

  // The sum.

  function Both(a: Ledger, b: Ledger): Ledger {
    Ledger(a.admitted + b.admitted, a.bypassed + b.bypassed, a.released + b.released, a.recorded + b.recorded,
           a.out + b.out, a.spent + b.spent, a.clearances + b.clearances, a.wiped + b.wiped, a.resumes + b.resumes,
           a.midnights + b.midnights)
  }

  /** The key's history in the store and in these fallbacks, together. */
  function Altogether(store: Ledger, fs: seq<Fallback>): Ledger {
    if fs == [] then store else Both(fs[0].ledger, Altogether(store, fs[1..]))
  }

  lemma BothBounded(f: real, cap: real, a: Ledger, m: nat, b: Ledger, n: nat)
    requires Bounded(f, cap, a, m) && Bounded(f, cap, b, n)
    ensures Bounded(f, cap, Both(a, b), m + n)
  {
    Added(f, cap + f, a.admitted - a.recorded - a.released, b.admitted - b.recorded - b.released,
          a.clearances + m, b.clearances + n, a.bypassed + a.wiped, b.bypassed + b.wiped);
  }

  lemma {:induction false} AltogetherBounded(p: Policy, k: string, store: Ledger, fs: seq<Fallback>)
    requires StoreKeys.TotalPolicy(p) && Bounded(p.floor, Rounded(p.maxKey), store, 1)
    requires forall f <- fs :: FallbackNet(p, k, f)
    ensures Bounded(p.floor, Rounded(p.maxKey), Altogether(store, fs), 1 + |fs|)
  {
    hide Bounded, TotalNet, StoreKeys.TotalPolicy;
    if fs != [] {
      var f := fs[0];
      var t := KeyBounds.TotalsOf(f.ctl, k);
      assert FallbackNet(p, k, f);
      StoreKeys.FloorAndCap(p);
      TotalBounded(p.floor, Rounded(p.maxKey), f.ledger, t.0, t.2, t.1);
      AltogetherBounded(p, k, store, fs[1..]);
      BothBounded(p.floor, Rounded(p.maxKey), f.ledger, 1, Altogether(store, fs[1..]), 1 + |fs[1..]|);
    }
  }

  lemma {:induction false} AllNet(p: Policy, k: string, reps: seq<Replica>)
    requires forall i :: 0 <= i < |reps| ==> ReplicaNet(p, k, reps[i])
    ensures forall f <- ClusterBounds.FallbacksOf(reps) :: FallbackNet(p, k, f)
  {
    hide FallbackNet;
    if reps != [] {
      assert ReplicaNet(p, k, reps[0]);
      AllNet(p, k, reps[1..]);
    }
  }

  /** The key's history in the store of a cluster, from the scripts that reached it. */
  function StoreHistory(p: Policy, k: string, start: Cluster, acts: seq<Act>): Ledger
    requires k != "" && CanUnfold(p, Key(k), start, acts)
  {
    StoreKeys.ToldAll(Store.LimitsOf(p), start.store, ClusterPauses.ScriptsOf(p, Key(k), start, acts), k, NEW_LEDGER)
  }

  /**
    In every state replicas and store can reach, until a key's total is first cleared it is, in
    the store, what was recorded for the key there, each settlement counted once however often it was
    sent, and whether or not its call had a run.
   */
  lemma {:induction false} KeyTotalIsRecorded(p: Policy, k: string, start: Cluster, acts: seq<Act>, c: Cluster)
    requires k != "" && Begins(start) && CanUnfold(p, Key(k), start, acts) && c == Unfolded(p, Key(k), start, acts)
    ensures
      var b, h := StoreHistory(p, k, start, acts), Store.KeyHashOf(c.store, k);
      b.clearances == 0 ==> h.lcalls == b.recorded && h.lspend as real == b.spent
  {
    assert start.store == Store.EMPTY_STORE;
    hide CanUnfold, Unfolded, Begins, StoreKeys.ToldAll, Store.RanAll, ClusterPauses.ScriptsOf;
    ClusterPauses.StoreIsScripts(p, Key(k), start, acts);
    StoreKeys.TotalIsRecorded(Store.LimitsOf(p), start.store, ClusterPauses.ScriptsOf(p, Key(k), start, acts), k, NEW_LEDGER);
  }

  /**
    The cluster-wide bound of a key: if no call costs more than the floor it is reserved at, then
    over every interleaving of replicas, gaps, recoveries, lost answers, repeats and late admissions, the
    dollars the store and every fallback ever built have recorded for the key, whatever runs it
    starts and in calls of no run, with a floor for each call out, stay below one total cap and one
    floor for the store and for each of them, the same again for each of their total-cap resumes and
    evictions, and a floor for each call forced through and each reservation wiped on its own.
   */
  lemma {:induction false} ClusterKeyBound(p: Policy, k: string, start: Cluster, acts: seq<Act>, c: Cluster)
    requires k != "" && StoreKeys.TotalPolicy(p) && AllCheap(p, acts)
    requires Begins(start) && CanUnfold(p, Key(k), start, acts) && c == Unfolded(p, Key(k), start, acts)
    ensures
      var fs := ClusterBounds.FallbacksOf(c.replicas);
      Bounded(p.floor, Rounded(p.maxKey), Altogether(StoreHistory(p, k, start, acts), fs), 1 + |fs|)
  {
    assert !p.shadow && start.store == Store.EMPTY_STORE;
    BeginCheap(p, start);
    BeginNet(p, k, start);
    hide CanUnfold, Unfolded, CostsKept, Begins, AllCheap, StoreKeys.TotalPolicy, StoreKeys.Sound, StoreKeys.ToldAll;
    hide FallbackNet, ReplicaNet, Bounded, Altogether, ClusterBounds.FallbacksOf, ClusterPauses.ScriptsOf;
    ScriptsSound(p, Key(k), start, acts);
    StoreKeys.StoreKeyBound(p, ClusterPauses.ScriptsOf(p, Key(k), start, acts), k);
    PlayNet(p, k, start, acts);
    AllNet(p, k, c.replicas);
    AltogetherBounded(p, k, StoreHistory(p, k, start, acts), ClusterBounds.FallbacksOf(c.replicas));
  }
}

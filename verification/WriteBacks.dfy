/**
  Stops made in a gap reach the store: whatever a gap's fallback stops is owed as a pause, and once
  the store has taken that pause it holds until it is lifted there. Told from the stop event itself.
 */
module WriteBacks {
  import opened Control
  import opened Histories
  import opened Replica
  import opened Clusters
  import opened StorePauses
  import Delivery
  import Store
  import ClusterPauses

  // Queues of a cluster.

  ghost predicate QueuesSound(c: Cluster) {
    forall i :: 0 <= i < |c.replicas| ==> Delivery.Sound(c.replicas[i])
  }

  lemma OwingSound(r: Replica, cmd: Store.Command)
    requires Delivery.Sound(r)
    ensures Delivery.Sound(Owe(r, cmd))
  {
    hide Delivery.Kept, Enqueued;
    Delivery.EnqueuingKeeps(r.queue, cmd);
  }

  lemma ActSound(p: Policy, watched: Subject, c: Cluster, a: Act)
    requires CanAct(c, a) && QueuesSound(c)
    ensures QueuesSound(Acted(p, watched, c, a))
  {
    hide Delivery.Sound, Moved, CanMove, Enqueued, Store.Admit, Store.Exec, StoreAfter;
    match a {
      case OweIt(tok) =>
        OwingSound(c.replicas[c.drawn[tok].replica], CommandOf(c.drawn[tok], tok, c.calls[tok].closing));
      case OnReplica(i, m, _) => Delivery.MoveKeeps(p, watched, c.replicas[i], m);
      case _ =>
    }
  }

  lemma {:induction false} UnfoldSound(p: Policy, watched: Subject, c: Cluster, acts: seq<Act>)
    requires CanUnfold(p, watched, c, acts) && QueuesSound(c)
    ensures QueuesSound(Unfolded(p, watched, c, acts))
    decreases |acts|
  {
    hide Acted, CanAct, QueuesSound;
    if acts != [] {
      ActSound(p, watched, c, acts[0]);
      UnfoldSound(p, watched, Acted(p, watched, c, acts[0]), acts[1..]);
    }
  }

  lemma BeginSound(c: Cluster)
    requires Begins(c)
    ensures QueuesSound(c)
  {
    hide Starts, Delivery.Sound;
    forall i | 0 <= i < |c.replicas| ensures Delivery.Sound(c.replicas[i]) {
      Delivery.StartKeeps(c.replicas[i]);
    }
  }

  // What becomes of one item.

  /** Items taken are numbered before every one still to be owed. */
  lemma TakenAreOlder(q: Queue)
    requires Delivery.Kept(q)
    ensures forall it <- q.taken :: it.id < |q.all|
  {
    forall it | it in q.taken ensures it.id < |q.all| {
      assert it in Delivery.Gone(q) + multiset(Delivery.Pending(q));
      assert it in multiset(q.all);
    }
  }

  lemma {:induction false} OwingTakesNone(r: Replica, evs: seq<StopEvent>)
    ensures OweAll(r, evs).queue.taken == r.queue.taken
    decreases |evs|
  {
    hide PauseOf;
    if evs != [] {
      OwingTakesNone(Owe(r, PauseOf(evs[0])), evs[1..]);
    }
  }

  lemma OnlyTakingTakes(p: Policy, watched: Subject, r: Replica, m: Move, item: Item)
    requires CanMove(r, m) && item !in r.queue.taken && item in Moved(p, watched, r, m).queue.taken
    ensures m.Steps? && m.step.Deliver? && m.step.delivery == Take(Done) && item == r.queue.batch[0]
  {
    hide Seed, NewStops, Histories.Next, OweAll;
    if m.Decides? {
      OwingTakesNone(OnFallback(p, watched, r, m.i, m.e), NewStops(p, r.fallbacks[m.i].ctl, m.e));
    }
  }

  /** An item joins those taken only as its command is carried out. */
  lemma TakenAsCarriedOut(p: Policy, watched: Subject, c: Cluster, a: Act, i: nat, item: Item)
    requires CanAct(c, a) && i < |c.replicas| && item !in c.replicas[i].queue.taken
    requires i < |Acted(p, watched, c, a).replicas| && item in Acted(p, watched, c, a).replicas[i].queue.taken
    ensures a.OnReplica? && ClusterPauses.ScriptOf(p, c, a) == [Store.Does(item.cmd, a.today)]
  {
    hide Store.Admit, Store.Exec, StoreAfter, Moved, CanMove;
    if a.OnReplica? {
      OnlyTakingTakes(p, watched, c.replicas[a.i], a.m, item);
    }
  }

  /** What is true of the store once an item is taken. */
  ghost predicate OnceTaken(c: Cluster, i: nat, item: Item, holds: Store.State -> bool) {
    i < |c.replicas| && (item in c.replicas[i].queue.taken ==> holds(c.store))
  }

  /** Scripts that keep what holds, and the item's own, which brings it about. */
  ghost predicate Brings(l: Store.Limits, s: Store.State, x: Store.Script, cmd: Store.Command, holds: Store.State -> bool) {
    && (holds(s) ==> holds(Store.Ran(l, s, x)))
    && (x.Does? && x.cmd == cmd ==> holds(Store.Ran(l, s, x)))
  }

  lemma ActBrings(p: Policy, watched: Subject, c: Cluster, a: Act, i: nat, item: Item, holds: Store.State -> bool)
    requires CanAct(c, a) && OnceTaken(c, i, item, holds)
    requires forall x <- ClusterPauses.ScriptOf(p, c, a) :: Brings(Store.LimitsOf(p), c.store, x, item.cmd, holds)
    ensures OnceTaken(Acted(p, watched, c, a), i, item, holds)
  {
    var l, xs, c' := Store.LimitsOf(p), ClusterPauses.ScriptOf(p, c, a), Acted(p, watched, c, a);
    ClusterPauses.ActRunsScript(p, watched, c, a);
    ClusterPauses.OneScript(l, c.store, xs);
    SameReplicas(p, watched, c, a);
    if item in c'.replicas[i].queue.taken && item !in c.replicas[i].queue.taken {
      TakenAsCarriedOut(p, watched, c, a, i, item);
    }
    hide CanAct, Acted, Store.Ran, ClusterPauses.ScriptOf;
    assert xs != [] ==> Brings(l, c.store, xs[0], item.cmd, holds);
  }

  lemma SameReplicas(p: Policy, watched: Subject, c: Cluster, a: Act)
    requires CanAct(c, a)
    ensures |Acted(p, watched, c, a).replicas| == |c.replicas|
  {
    hide Store.Admit, Store.Exec, StoreAfter, Moved, CanMove, Enqueued;
  }

  // A gap's stop, and its item.

  /** A stop that a gap's fallback makes, x-th of those one event makes, at replica i. */
  ghost predicate StoppedInGap(p: Policy, c: Cluster, i: nat, j: nat, e: Event, x: nat, ev: StopEvent) {
    && i < |c.replicas| && j < |c.replicas[i].fallbacks| && c.replicas[i].fallbacks[j].gap && !e.op.SetKilled?
    && x < |NewStops(p, c.replicas[i].fallbacks[j].ctl, e)| && ev == NewStops(p, c.replicas[i].fallbacks[j].ctl, e)[x]
  }

  /** The write-back of a run's stop, with its reason; and of a key's, with its reason and the UTC day it was made on. */
  function WriteBackOf(ev: StopEvent): Store.Command {
    if ev.run != "" then Store.DoPauseRun(ev.run, ev.reason)
    else Store.DoPauseKey(ev.key, ev.reason, ev.dayPause, ev.at / DAY)
  }

  /** The item the stop becomes. */
  function ItemOf(c: Cluster, i: nat, x: nat, ev: StopEvent): Item
    requires i < |c.replicas|
  {
    Item(|c.replicas[i].queue.all| + x, WriteBackOf(ev))
  }

  lemma StopIsOwedHere(p: Policy, watched: Subject, r: Replica, j: nat, e: Event, x: nat)
    requires Delivery.Sound(r) && j < |r.fallbacks| && r.fallbacks[j].gap && x < |NewStops(p, r.fallbacks[j].ctl, e)|
    ensures
      var q, q' := r.queue, Operate(p, watched, r, j, e).queue;
      var item := Item(|q.all| + x, PauseOf(NewStops(p, r.fallbacks[j].ctl, e)[x]));
      item in q'.all && item !in q'.taken
  {
    hide NewStops, OweAll, PauseOf, Histories.Next, Delivery.Kept;
    var stops := NewStops(p, r.fallbacks[j].ctl, e);
    var q' := Operate(p, watched, r, j, e).queue;
    Delivery.PausesAreOwed(p, watched, r, j, e);
    Delivery.OperateKeeps(p, watched, r, j, e);
    TakenAreOlder(r.queue);
    OwingTakesNone(OnFallback(p, watched, r, j, e), stops);
    NumberedSo(q', |r.queue.all| + x);
  }

  lemma NumberedSo(q: Queue, n: nat)
    requires Delivery.Kept(q) && n < |q.all|
    ensures q.all[n] == Item(n, q.all[n].cmd)
  {
  }

  lemma PausedAsStopped(ev: StopEvent)
    requires ev.run != "" || ev.key != ""
    ensures PauseOf(ev) == WriteBackOf(ev)
  {
  }

  lemma StopIsOwed(p: Policy, watched: Subject, c: Cluster, i: nat, j: nat, e: Event, today: nat, x: nat, ev: StopEvent)
    requires QueuesSound(c) && StoppedInGap(p, c, i, j, e, x, ev) && (ev.run != "" || ev.key != "")
    ensures CanAct(c, OnReplica(i, Decides(j, e), today))
    ensures
      var c1 := Acted(p, watched, c, OnReplica(i, Decides(j, e), today));
      && |c1.replicas| == |c.replicas|
      && ItemOf(c, i, x, ev) in c1.replicas[i].queue.all && ItemOf(c, i, x, ev) !in c1.replicas[i].queue.taken
  {
    hide NewStops, Operate, PauseOf, WriteBackOf, Delivery.Sound;
    StopIsOwedHere(p, watched, c.replicas[i], j, e, x);
    PausedAsStopped(ev);
  }

  // A run's stop.

  lemma ResumeAsideBrings(l: Store.Limits, s: Store.State, x: Store.Script, r: string, reason: Reason)
    requires r != "" && !(x.Does? && x.cmd == Store.DoResumeRun(r))
    ensures Brings(l, s, x, Store.DoPauseRun(r, reason), s => RunStopped(s, r))
  {
    if RunStopped(s, r) {
      hide Store.Ran, RunStopped;
      RunPauseStands(l, s, [x], r);
      ClusterPauses.OneScript(l, s, [x]);
    }
  }

  lemma {:induction false} RunStopKept(
    p: Policy, watched: Subject, c: Cluster, acts: seq<Act>, i: nat, item: Item, r: string, reason: Reason)
    requires r != "" && item.cmd == Store.DoPauseRun(r, reason) && CanUnfold(p, watched, c, acts)
    requires OnceTaken(c, i, item, s => RunStopped(s, r))
    requires forall x <- ClusterPauses.ScriptsOf(p, watched, c, acts) :: !(x.Does? && x.cmd == Store.DoResumeRun(r))
    ensures OnceTaken(Unfolded(p, watched, c, acts), i, item, s => RunStopped(s, r))
    decreases |acts|
  {
    hide Acted, CanAct, OnceTaken, ClusterPauses.ScriptOf, RunStopped, Brings;
    if acts != [] {
      forall x | x in ClusterPauses.ScriptOf(p, c, acts[0])
        ensures Brings(Store.LimitsOf(p), c.store, x, item.cmd, s => RunStopped(s, r))
      {
        ResumeAsideBrings(Store.LimitsOf(p), c.store, x, r, reason);
      }
      ActBrings(p, watched, c, acts[0], i, item, s => RunStopped(s, r));
      RunStopKept(p, watched, Acted(p, watched, c, acts[0]), acts[1..], i, item, r, reason);
    }
  }

  /**
    A run that a gap's fallback stops is owed to the store as a pause, with its reason; and once the store
    has taken that, the run is paused there until its resume is carried out there, whatever any
    replica does meanwhile.
   */
  lemma {:induction false} RunStopReachesStore(
    p: Policy, watched: Subject, start: Cluster, before: seq<Act>, c: Cluster, i: nat, j: nat, e: Event, today: nat,
    x: nat, ev: StopEvent, c1: Cluster, acts: seq<Act>)
    requires Begins(start) && CanUnfold(p, watched, start, before) && c == Unfolded(p, watched, start, before)
    requires StoppedInGap(p, c, i, j, e, x, ev) && ev.run != ""
    requires CanAct(c, OnReplica(i, Decides(j, e), today)) && c1 == Acted(p, watched, c, OnReplica(i, Decides(j, e), today))
    requires CanUnfold(p, watched, c1, acts)
    requires forall x <- ClusterPauses.ScriptsOf(p, watched, c1, acts) :: !(x.Does? && x.cmd == Store.DoResumeRun(ev.run))
    ensures |c1.replicas| == |c.replicas| && ItemOf(c, i, x, ev) in c1.replicas[i].queue.all
    ensures
      var c2 := Unfolded(p, watched, c1, acts);
      |c2.replicas| > i && (ItemOf(c, i, x, ev) in c2.replicas[i].queue.taken ==> RunStopped(c2.store, ev.run))
  {
    hide CanUnfold, Unfolded, Begins, Acted, CanAct, QueuesSound, StoppedInGap, ClusterPauses.ScriptsOf, RunStopped;
    BeginSound(start);
    UnfoldSound(p, watched, start, before);
    StopIsOwed(p, watched, c, i, j, e, today, x, ev);
    SameReplicas(p, watched, c, OnReplica(i, Decides(j, e), today));
    assert i < |c.replicas| by { AtReplica(p, c, i, j, e, x, ev); }
    RunStopKept(p, watched, c1, acts, i, ItemOf(c, i, x, ev), ev.run, ev.reason);
  }

  lemma AtReplica(p: Policy, c: Cluster, i: nat, j: nat, e: Event, x: nat, ev: StopEvent)
    requires StoppedInGap(p, c, i, j, e, x, ev)
    ensures i < |c.replicas|
  {
  }

  // A key's stop for its day.

  /** A key paused in the store, whose day there is just this one. */
  predicate StoppedFor(s: Store.State, key: string, day: nat) {
    var k := Store.KeyHashOf(s, key);
    k.paused && k.day == Store.OnDay(day)
  }

  /** A script that is not the key's resume, and knows of no day later than this one. */
  predicate WithinDay(x: Store.Script, key: string, day: nat) {
    match x
    case Asks(_, k, _, _, today) => k == key ==> today <= day
    case Does(cmd, today) =>
      && cmd != Store.DoResumeKey(key)
      && (cmd.DoRecord? && cmd.key == key ==> today <= day)
      && (cmd.DoPauseKey? && cmd.key == key && cmd.day ==> cmd.onDay <= day)
    case Kills(_) => true
  }

  /** The store's day of a key is not past this one. */
  predicate NotPast(s: Store.State, key: string, day: nat) {
    var k := Store.KeyHashOf(s, key);
    k.day.OnDay? ==> k.day.day <= day
  }

  /** From s to s', the key's day does not come to be past, and a pause for the day stands. */
  predicate DayStands(s: Store.State, s': Store.State, key: string, day: nat) {
    (NotPast(s, key, day) ==> NotPast(s', key, day)) && (StoppedFor(s, key, day) ==> StoppedFor(s', key, day))
  }

  lemma RollStands(s: Store.State, k: string, today: nat, key: string, day: nat)
    requires k == key ==> today <= day
    ensures DayStands(s, Store.RollKey(s, k, today), key, day)
  {
  }

  lemma PiecesStand(
    s: Store.State, run: string, k: string, tok: Store.Token, code: Store.Code, mark: Store.Mark, key: string, day: nat)
    ensures DayStands(s, Store.PauseKey(s, k, code), key, day) && DayStands(s, Store.PauseRun(s, run, code), key, day)
    ensures DayStands(s, Store.MarkAdmit(s, run, k, tok, mark), key, day)
  {
  }

  lemma ReserveStands(s: Store.State, run: string, k: string, tok: Store.Token, forced: bool, key: string, day: nat)
    ensures DayStands(s, Store.Reserve(s, run, k, tok, forced), key, day)
  {
  }

  lemma AdmissionWithinDay(l: Store.Limits, s: Store.State, x: Store.Script, key: string, day: nat)
    requires key != "" && x.Asks? && WithinDay(x, key, day) && (x.run != "" || x.key != "")
    ensures DayStands(s, Store.Ran(l, s, x), key, day)
  {
    hide Store.VerdictOf, Store.RollKey, Store.Reserve, Store.MarkAdmit, Store.PauseKey, Store.PauseRun;
    hide NotPast, StoppedFor, Store.TokensAt;
    var s1 := Store.RollKey(s, x.key, x.today);
    var v := Store.VerdictOf(l, s1, x.run, x.key, x.mode);
    var code := if v.StopsKey? || v.StopsRun? then v.code else Store.NoCode;
    var s2 := if v.StopsKey? then Store.PauseKey(s1, x.key, code)
              else if v.StopsRun? then Store.PauseRun(s1, x.run, code) else s1;
    RollStands(s, x.key, x.today, key, day);
    PiecesStand(s1, x.run, x.key, x.tok, code, Store.Served, key, day);
    PiecesStand(s2, x.run, x.key, x.tok, code, Store.Refused(code), key, day);
    ReserveStands(s2, x.run, x.key, x.tok, x.mode == Store.Bypassing, key, day);
  }

  lemma RecordWithinDay(
    l: Store.Limits, s: Store.State, run: string, k: string, cost: int, loop: bool, today: nat, tok: Store.Token,
    key: string, day: nat)
    requires (run != "" || k != "") && (k == key ==> today <= day)
    ensures DayStands(s, Store.Record(l, s, run, k, cost, loop, today, tok), key, day)
  {
    hide Store.RunTripCode, Store.KeyTripCode;
  }

  lemma ReleaseWithinDay(s: Store.State, run: string, k: string, tok: Store.Token, key: string, day: nat)
    requires run != "" || k != ""
    ensures DayStands(s, Store.Release(s, run, k, tok), key, day)
  {
  }

  lemma OtherWithinDay(l: Store.Limits, s: Store.State, x: Store.Script, key: string, day: nat)
    requires key != "" && x.Does? && WithinDay(x, key, day) && !x.cmd.DoRecord? && !x.cmd.DoRelease?
    ensures DayStands(s, Store.Ran(l, s, x), key, day)
    ensures NotPast(s, key, day) && x.cmd.DoPauseKey? && x.cmd.key == key && x.cmd.day && x.cmd.onDay == day ==>
              StoppedFor(Store.Ran(l, s, x), key, day)
  {
  }

  /** Within the day, the key's stop stands; and its write-back brings it about. */
  lemma ScriptWithinDay(l: Store.Limits, s: Store.State, x: Store.Script, key: string, day: nat, reason: Reason)
    requires key != "" && WithinDay(x, key, day) && NotPast(s, key, day)
    ensures NotPast(Store.Ran(l, s, x), key, day)
    ensures Brings(l, s, x, Store.DoPauseKey(key, reason, true, day), s => StoppedFor(s, key, day))
  {
    hide Store.Record, Store.Release, Store.Admit, NotPast, StoppedFor;
    match x {
      case Asks(run, k, _, _, _) =>
        if run != "" || k != "" {
          AdmissionWithinDay(l, s, x, key, day);
        }
      case Does(cmd, today) =>
        if cmd.DoRecord? && Store.IsSettlement(cmd) {
          RecordWithinDay(l, s, cmd.run, cmd.key, cmd.cost, cmd.loop, today, cmd.tok, key, day);
        } else if cmd.DoRelease? && Store.IsSettlement(cmd) {
          ReleaseWithinDay(s, cmd.run, cmd.key, cmd.tok, key, day);
        } else if !cmd.DoRecord? && !cmd.DoRelease? {
          OtherWithinDay(l, s, x, key, day);
        }
      case Kills(on) => KillWithinDay(s, on, key, day);
    }
  }

  lemma KillWithinDay(s: Store.State, on: bool, key: string, day: nat)
    ensures DayStands(s, Store.SetKilled(s, on), key, day)
  {
  }

  lemma {:induction false} DayStopKept(
    p: Policy, watched: Subject, c: Cluster, acts: seq<Act>, i: nat, item: Item, key: string, day: nat, reason: Reason)
    requires key != "" && item.cmd == Store.DoPauseKey(key, reason, true, day) && CanUnfold(p, watched, c, acts)
    requires OnceTaken(c, i, item, s => StoppedFor(s, key, day)) && NotPast(c.store, key, day)
    requires forall x <- ClusterPauses.ScriptsOf(p, watched, c, acts) :: WithinDay(x, key, day)
    ensures OnceTaken(Unfolded(p, watched, c, acts), i, item, s => StoppedFor(s, key, day))
    decreases |acts|
  {
    hide Acted, CanAct, OnceTaken, ClusterPauses.ScriptOf, StoppedFor, NotPast, WithinDay, Brings, Store.Ran;
    if acts != [] {
      var l, xs := Store.LimitsOf(p), ClusterPauses.ScriptOf(p, c, acts[0]);
      forall x | x in xs ensures Brings(l, c.store, x, item.cmd, s => StoppedFor(s, key, day)) {
        ScriptWithinDay(l, c.store, x, key, day, reason);
      }
      ActBrings(p, watched, c, acts[0], i, item, s => StoppedFor(s, key, day));
      ClusterPauses.ActRunsScript(p, watched, c, acts[0]);
      ClusterPauses.OneScript(l, c.store, xs);
      if xs != [] {
        ScriptWithinDay(l, c.store, xs[0], key, day, reason);
      }
      DayStopKept(p, watched, Acted(p, watched, c, acts[0]), acts[1..], i, item, key, day, reason);
    }
  }

  /**
    A key that a gap's fallback stops for the day is owed as a pause of that UTC day; and once the
    store, where the day is not past, has taken that, the key is paused there for that day, until its
    resume is carried out there or a later day is heard of.
   */
  lemma {:induction false} DayStopReachesStore(
    p: Policy, watched: Subject, start: Cluster, before: seq<Act>, c: Cluster, i: nat, j: nat, e: Event, today: nat,
    x: nat, ev: StopEvent, c1: Cluster, acts: seq<Act>)
    requires Begins(start) && CanUnfold(p, watched, start, before) && c == Unfolded(p, watched, start, before)
    requires StoppedInGap(p, c, i, j, e, x, ev) && ev.run == "" && ev.key != "" && ev.dayPause
    requires CanAct(c, OnReplica(i, Decides(j, e), today)) && c1 == Acted(p, watched, c, OnReplica(i, Decides(j, e), today))
    requires CanUnfold(p, watched, c1, acts) && NotPast(c1.store, ev.key, ev.at / DAY)
    requires forall x <- ClusterPauses.ScriptsOf(p, watched, c1, acts) :: WithinDay(x, ev.key, ev.at / DAY)
    ensures |c1.replicas| == |c.replicas| > i && ItemOf(c, i, x, ev) in c1.replicas[i].queue.all
    ensures
      var c2 := Unfolded(p, watched, c1, acts);
      |c2.replicas| > i && (ItemOf(c, i, x, ev) in c2.replicas[i].queue.taken ==> StoppedFor(c2.store, ev.key, ev.at / DAY))
  {
    hide CanUnfold, Unfolded, Begins, Acted, CanAct, QueuesSound, StoppedInGap, ClusterPauses.ScriptsOf, StoppedFor, NotPast;
    hide WithinDay;
    BeginSound(start);
    UnfoldSound(p, watched, start, before);
    StopIsOwed(p, watched, c, i, j, e, today, x, ev);
    AtReplica(p, c, i, j, e, x, ev);
    DayStopKept(p, watched, c1, acts, i, ItemOf(c, i, x, ev), ev.key, ev.at / DAY, ev.reason);
  }

  // A key's stop on its total.

  lemma {:induction false} TotalStopKept(
    p: Policy, watched: Subject, c: Cluster, acts: seq<Act>, i: nat, item: Item, key: string, reason: Reason, onDay: nat)
    requires key != "" && item.cmd == Store.DoPauseKey(key, reason, false, onDay) && CanUnfold(p, watched, c, acts)
    requires OnceTaken(c, i, item, s => TotalStopped(s, key))
    requires LeftAlone(Store.LimitsOf(p), c.store, ClusterPauses.ScriptsOf(p, watched, c, acts), key)
    ensures OnceTaken(Unfolded(p, watched, c, acts), i, item, s => TotalStopped(s, key))
    decreases |acts|
  {
    hide Acted, CanAct, OnceTaken, ClusterPauses.ScriptOf, TotalStopped, Brings, Store.Ran, Overwrites;
    if acts != [] {
      var l, xs := Store.LimitsOf(p), ClusterPauses.ScriptOf(p, c, acts[0]);
      var c' := Acted(p, watched, c, acts[0]);
      var more := ClusterPauses.ScriptsOf(p, watched, c', acts[1..]);
      ClusterPauses.ActRunsScript(p, watched, c, acts[0]);
      ClusterPauses.OneScript(l, c.store, xs);
      if xs != [] {
        LeftAloneBrings(l, c.store, xs[0], key, reason, onDay);
        assert xs == [xs[0]];
        assert (xs + more)[1..] == more;
      } else {
        assert xs + more == more;
      }
      ActBrings(p, watched, c, acts[0], i, item, s => TotalStopped(s, key));
      TotalStopKept(p, watched, c', acts[1..], i, item, key, reason, onDay);
    }
  }

  lemma LeftAloneBrings(l: Store.Limits, s: Store.State, x: Store.Script, key: string, reason: Reason, onDay: nat)
    requires key != "" && (x.Does? ==> x.cmd != Store.DoResumeKey(key) && !Overwrites(s, x.cmd, key))
    ensures Brings(l, s, x, Store.DoPauseKey(key, reason, false, onDay), s => TotalStopped(s, key))
  {
    if TotalStopped(s, key) {
      hide Store.Ran, TotalStopped, Overwrites;
      TotalPauseStands(l, s, [x], key);
      ClusterPauses.OneScript(l, s, [x]);
    }
  }

  /**
    A key that a gap's fallback stops on its total is owed as such a pause; and once the store has
    taken that, the key's total-cap pause stands there until its resume, or the write-back of a daily
    one over it, is carried out there.
   */
  lemma {:induction false} TotalStopReachesStore(
    p: Policy, watched: Subject, start: Cluster, before: seq<Act>, c: Cluster, i: nat, j: nat, e: Event, today: nat,
    x: nat, ev: StopEvent, c1: Cluster, acts: seq<Act>)
    requires Begins(start) && CanUnfold(p, watched, start, before) && c == Unfolded(p, watched, start, before)
    requires StoppedInGap(p, c, i, j, e, x, ev) && ev.run == "" && ev.key != "" && !ev.dayPause
    requires CanAct(c, OnReplica(i, Decides(j, e), today)) && c1 == Acted(p, watched, c, OnReplica(i, Decides(j, e), today))
    requires CanUnfold(p, watched, c1, acts)
    requires LeftAlone(Store.LimitsOf(p), c1.store, ClusterPauses.ScriptsOf(p, watched, c1, acts), ev.key)
    ensures |c1.replicas| == |c.replicas| > i && ItemOf(c, i, x, ev) in c1.replicas[i].queue.all
    ensures
      var c2 := Unfolded(p, watched, c1, acts);
      |c2.replicas| > i && (ItemOf(c, i, x, ev) in c2.replicas[i].queue.taken ==> TotalStopped(c2.store, ev.key))
  {
    hide CanUnfold, Unfolded, Begins, Acted, CanAct, QueuesSound, StoppedInGap, ClusterPauses.ScriptsOf, TotalStopped, LeftAlone;
    BeginSound(start);
    UnfoldSound(p, watched, start, before);
    StopIsOwed(p, watched, c, i, j, e, today, x, ev);
    AtReplica(p, c, i, j, e, x, ev);
    TotalStopKept(p, watched, c1, acts, i, ItemOf(c, i, x, ev), ev.key, ev.reason, ev.at / DAY);
  }
}

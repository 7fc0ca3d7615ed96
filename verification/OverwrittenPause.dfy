/**
  One run of two replicas in which a total-cap pause does not wait for an operator. A key has
  spent half its total; the next day a call in flight is reserved at the other half, and the
  store pauses the key on its total cap. Meanwhile the other replica, in a gap, has paused the
  key for the day, and writes that back. The day after, a call of the key is served.
 */
module OverwrittenPause {
  import opened Control
  import opened Histories
  import opened Replica
  import opened Clusters
  import opened StorePauses
  import Store

  const KEY := "k"

  /** Five dollars a call, six a day and ten in all; here, micro-dollars. */
  const CAPS := Policy(0, 0.0, 5.0, false, 6.0, 10.0, false, 10000)
  const LIMITS := Store.Limits(0, 0, 5, false, 6, 10)

  const FIRST := Store.Token(0, 1)
  const SECOND := Store.Token(1, 2)
  const THIRD := Store.Token(1, 3)
  const FOURTH := Store.Token(2, 4)

  /** A call of the key, with no run, by the replica that stays healthy. */
  const CALL := Ask(1, "", KEY, false)

  lemma CapsInMicros()
    ensures Store.LimitsOf(CAPS) == LIMITS && Store.ModeOf(CAPS, false) == Store.Deciding
  {
  }

  // The store's part.

  /** The key's record: its day, settled calls and spend that day and in all, calls in flight, its pause. */
  predicate KeyIs(s: Store.State, day: nat, dcalls: nat, dspend: int, inflight: nat) {
    Store.KeyHashOf(s, KEY) == Store.KeyHash(Store.OnDay(day), dcalls, dspend, 1, 5, inflight, false, Store.NoCode, false)
  }

  predicate Fresh(s: Store.State, tok: Store.Token) {
    tok !in Store.TokensAt(s, "", KEY, tok).admits
  }

  lemma FirstAdmitted()
    ensures
      var (s, a) := Store.Admit(LIMITS, Store.EMPTY_STORE, "", KEY, Store.Deciding, 0, FIRST);
      && a.ok && !s.killed && Fresh(s, SECOND) && Fresh(s, THIRD) && Fresh(s, FOURTH)
      && FIRST !in Store.TokensAt(s, "", KEY, FIRST).settled
      && Store.KeyHashOf(s, KEY) == Store.KeyHash(Store.OnDay(0), 0, 0, 0, 0, 1, false, Store.NoCode, false)
  {
  }

  lemma FirstRecorded(s: Store.State)
    requires !s.killed && Fresh(s, SECOND) && Fresh(s, THIRD) && Fresh(s, FOURTH)
    requires FIRST !in Store.TokensAt(s, "", KEY, FIRST).settled
    requires Store.KeyHashOf(s, KEY) == Store.KeyHash(Store.OnDay(0), 0, 0, 0, 0, 1, false, Store.NoCode, false)
    ensures
      var s' := Store.Record(LIMITS, s, "", KEY, 5, false, 0, FIRST);
      !s'.killed && Fresh(s', SECOND) && Fresh(s', THIRD) && Fresh(s', FOURTH) && KeyIs(s', 0, 1, 5, 0)
  {
  }

  lemma SecondAdmitted(s: Store.State)
    requires !s.killed && Fresh(s, SECOND) && Fresh(s, THIRD) && Fresh(s, FOURTH) && KeyIs(s, 0, 1, 5, 0)
    ensures
      var (s', a) := Store.Admit(LIMITS, s, "", KEY, Store.Deciding, 1, SECOND);
      a.ok && !s'.killed && Fresh(s', THIRD) && Fresh(s', FOURTH) && KeyIs(s', 1, 0, 0, 1)
  {
  }

  /** The call in flight is reserved at what is left of the total: the third call stops the key. */
  lemma ThirdStopsKey(s: Store.State)
    requires !s.killed && Fresh(s, THIRD) && Fresh(s, FOURTH) && KeyIs(s, 1, 0, 0, 1)
    ensures
      var (s', a) := Store.Admit(LIMITS, s, "", KEY, Store.Deciding, 1, THIRD);
      && !a.ok && !s'.killed && Fresh(s', FOURTH) && TotalStopped(s', KEY)
      && Store.KeyHashOf(s', KEY).reason == Store.KLife(10)
      && Store.KeyHashOf(s', KEY).day == Store.OnDay(1) && Store.KeyHashOf(s', KEY).lspend == 5
  {
  }

  // The fallback's part.

  const ADMITTED := Event(Op.Admit("", KEY, false), DAY, {}, {})
  const RECORDED := Event(Op.Record("", KEY, 6.0, false), DAY, {}, {})
  const WRITE_BACK := Store.DoPauseKey(KEY, KeyDayCap(KEY, 6.0), true, 1)

  /** The key as a fallback that has admitted one call of it has it. */
  function OneOut(): Ctl {
    EMPTY.(keys := map[KEY := FreshKey(1).(inflight := 1, lastSeen := DAY)])
  }

  lemma FallbackAdmits(watched: Subject, l: Ledger)
    ensures Core(CAPS, EMPTY, ADMITTED.op, DAY).reply.ok && Legal(CAPS, EMPTY, ADMITTED)
    ensures Histories.Next(CAPS, watched, World(EMPTY, l), ADMITTED).ctl == Apply(CAPS, EMPTY, ADMITTED) == OneOut()
  {
    hide Tally;
    assert DayOf(DAY) == 1;
    assert AdmitCall(CAPS, EMPTY, "", KEY, false, DAY).ctl == OneOut() by { KeyIsFree(); }
    assert OneOut().runs - {} == OneOut().runs && OneOut().keys - {} == OneOut().keys;
    assert KeyAges(OneOut().keys).Keys == {KEY};
    assert |KeyAges(OneOut().keys)| == 1;
    var none: set<string> := {};
    assert Evict(OneOut(), none, none) == OneOut();
    assert Core(CAPS, EMPTY, ADMITTED.op, DAY).ctl == OneOut();
    assert Apply(CAPS, EMPTY, ADMITTED) == Evict(OneOut(), none, none);
  }

  lemma KeyIsFree()
    ensures KeyLimit(CAPS, KEY, FreshKey(1).(lastSeen := DAY)) == NoReason
    ensures DayOf(DAY) == 1
  {
  }

  /** Six dollars is the day's cap: the key is stopped for the day. */
  lemma FallbackStops(watched: Subject, l: Ledger)
    ensures Legal(CAPS, OneOut(), RECORDED)
    ensures
      var c := Histories.Next(CAPS, watched, World(OneOut(), l), RECORDED).ctl;
      && |c.stops| == 1 && c == Apply(CAPS, OneOut(), RECORDED)
      && c.stops[0].run == "" && c.stops[0].key == KEY && c.stops[0].reason == KeyDayCap(KEY, 6.0)
      && c.stops[0].dayPause && c.stops[0].at == DAY
  {
    hide Tally;
    assert DayOf(DAY) == 1;
    var keys := Core(CAPS, OneOut(), RECORDED.op, DAY).ctl.keys;
    assert KeyAges(keys).Keys == keys.Keys == {KEY};
    assert |KeyAges(keys)| == 1;
  }

  /** A replica that owes the store one thing, with nobody delivering. */
  predicate Owes(r: Replica, cmd: Store.Command) {
    && r.degraded && r.recovery.NoRecovery? && r.holder.Nobody? && !r.kill.dirty
    && r.queue == NO_QUEUE.(owed := [Item(0, cmd)], all := [Item(0, cmd)])
  }

  /** The gap begins, and its fallback admits a call, records it and stops the key. */
  lemma GapOwesPause(r: Replica)
    requires Starts(r)
    ensures CanMove(r, Steps(Switch(Degrade(EMPTY))))
    ensures
      var r1 := Moved(CAPS, Run(""), r, Steps(Switch(Degrade(EMPTY))));
      && CanMove(r1, Decides(1, ADMITTED))
      && var r2 := Moved(CAPS, Run(""), r1, Decides(1, ADMITTED));
         && CanMove(r2, Decides(1, RECORDED))
         && Owes(Moved(CAPS, Run(""), r2, Decides(1, RECORDED)), WRITE_BACK)
  {
    hide Histories.Next, Apply, Core;
    var r1 := Switched(r, Degrade(EMPTY));
    var f := r1.fallbacks[1];
    FallbackAdmits(Run(""), f.ledger);
    var r2 := Operate(CAPS, Run(""), r1, 1, ADMITTED);
    assert NewStops(CAPS, EMPTY, ADMITTED) == [];
    assert r2.fallbacks[1].ctl == OneOut() && r2.fallbacks[1].gap;
    FallbackStops(Run(""), r2.fallbacks[1].ledger);
    var stops := NewStops(CAPS, OneOut(), RECORDED);
    assert |stops| == 1 && PauseOf(stops[0]) == WRITE_BACK by { assert DayOf(DAY) == 1; }
    assert OweAll(r2, stops) == Owe(r2, WRITE_BACK);
  }

  /** The gap's recovery begins, takes the lock and a batch, and is about to send it. */
  lemma RecoverySends(r: Replica, cmd: Store.Command)
    requires Owes(r, cmd)
    ensures CanMove(r, Steps(Recover(Begin)))
    ensures
      var r1 := Moved(CAPS, Run(""), r, Steps(Recover(Begin)));
      && CanMove(r1, Steps(Deliver(Lock(Recoverer))))
      && var r2 := Moved(CAPS, Run(""), r1, Steps(Deliver(Lock(Recoverer))));
         && CanMove(r2, Steps(Deliver(TakeBatch)))
         && var r3 := Moved(CAPS, Run(""), r2, Steps(Deliver(TakeBatch)));
            CanMove(r3, Steps(Deliver(Take(Done)))) && r3.queue.batch[0].cmd == cmd
  {
  }

  // The cluster's run.

  /** Acts that lead from one state of a cluster to another. */
  ghost predicate Leads(c: Cluster, acts: seq<Act>, c': Cluster) {
    CanUnfold(CAPS, Run(""), c, acts) && Unfolded(CAPS, Run(""), c, acts) == c'
  }

  lemma {:induction false} OneMore(c: Cluster, acts: seq<Act>, c': Cluster, a: Act)
    requires Leads(c, acts, c') && CanAct(c', a)
    ensures Leads(c, acts + [a], Acted(CAPS, Run(""), c', a))
    decreases |acts|
  {
    hide CanAct, Acted;
    if acts == [] {
      var xs := acts + [a];
      assert xs[0] == a && xs[1..] == [];
      NoActs(Acted(CAPS, Run(""), c, a));
    } else {
      assert (acts + [a])[0] == acts[0] && (acts + [a])[1..] == acts[1..] + [a];
      OneMore(Acted(CAPS, Run(""), c, acts[0]), acts[1..], c', a);
    }
  }

  /** A call is sent to the store, and its script runs there. */
  lemma Asks(c: Cluster, tok: Store.Token, today: nat)
    requires tok !in c.drawn && |c.replicas| == 2
    ensures CanAct(c, Send(tok, CALL))
    ensures
      var c1 := Acted(CAPS, Run(""), c, Send(tok, CALL));
      && CanAct(c1, Arrive(tok, today))
      && var (s, a) := Store.Admit(LIMITS, c.store, "", KEY, Store.Deciding, today, tok);
         Acted(CAPS, Run(""), c1, Arrive(tok, today))
         == c.(store := s, drawn := c.drawn[tok := CALL], asks := c.asks[tok := Said(a.ok)])
  {
    hide Store.Admit;
    CapsInMicros();
  }

  /** A call the store serves is heard of, ends, and is settled there. */
  lemma Ends(c: Cluster, tok: Store.Token, cost: int, today: nat)
    requires tok in c.drawn && c.drawn[tok] == CALL && tok in c.asks && c.asks[tok] == Said(true)
    ensures CanAct(c, Hear(tok))
    ensures
      var c1 := Acted(CAPS, Run(""), c, Hear(tok));
      && CanAct(c1, End(tok, Costs(cost, false)))
      && var c2 := Acted(CAPS, Run(""), c1, End(tok, Costs(cost, false)));
         && CanAct(c2, Settle(tok, Done, today))
         && var c3 := Acted(CAPS, Run(""), c2, Settle(tok, Done, today));
            && c3.store == Store.Record(LIMITS, c.store, "", KEY, cost, false, today, tok)
            && c3.replicas == c.replicas && c3.drawn == c.drawn
  {
    hide Store.Record;
    CapsInMicros();
  }

  /** The store, once the key is stopped on its total. */
  predicate StoppedOnReservation(s: Store.State) {
    && !s.killed && Fresh(s, FOURTH) && TotalStopped(s, KEY)
    && Store.KeyHashOf(s, KEY).day == Store.OnDay(1) && Store.KeyHashOf(s, KEY).lspend == 5
  }

  lemma StorePath(c: Cluster) returns (acts: seq<Act>, c': Cluster)
    requires Begins(c) && |c.replicas| == 2
    ensures Leads(c, acts, c') && Unordered(acts)
    ensures c'.replicas == c.replicas && FOURTH !in c'.drawn && StoppedOnReservation(c'.store)
  {
    hide Acted, CanAct, Leads, Store.Admit, Store.Record, Begins;
    assert c.store == Store.EMPTY_STORE && c.drawn == map[] by { StartOf(c); }
    acts, c' := [], c;
    assert Leads(c, [], c) by { NoActs(c); }
    Asks(c', FIRST, 0);
    FirstAdmitted();
    acts, c' := Then(c, acts, c', Send(FIRST, CALL));
    acts, c' := Then(c, acts, c', Arrive(FIRST, 0));
    Ends(c', FIRST, 5, 0);
    FirstRecorded(c'.store);
    acts, c' := Then(c, acts, c', Hear(FIRST));
    acts, c' := Then(c, acts, c', End(FIRST, Costs(5, false)));
    acts, c' := Then(c, acts, c', Settle(FIRST, Done, 0));
    Asks(c', SECOND, 1);
    SecondAdmitted(c'.store);
    acts, c' := Then(c, acts, c', Send(SECOND, CALL));
    acts, c' := Then(c, acts, c', Arrive(SECOND, 1));
    Asks(c', THIRD, 1);
    ThirdStopsKey(c'.store);
    acts, c' := Then(c, acts, c', Send(THIRD, CALL));
    acts, c' := Then(c, acts, c', Arrive(THIRD, 1));
  }

  /** None of the acts is an operator's, or a caller's that sets a cap. */
  predicate Unordered(acts: seq<Act>) {
    forall a <- acts :: !a.Ordered?
  }

  lemma Then(c: Cluster, acts: seq<Act>, c1: Cluster, a: Act) returns (acts': seq<Act>, c': Cluster)
    requires Leads(c, acts, c1) && Unordered(acts) && CanAct(c1, a) && !a.Ordered?
    ensures Leads(c, acts', c') && Unordered(acts') && c' == Acted(CAPS, Run(""), c1, a)
  {
    acts', c' := acts + [a], Acted(CAPS, Run(""), c1, a);
    OneMore(c, acts, c1, a);
  }

  lemma NoActs(c: Cluster)
    ensures Leads(c, [], c)
  {
  }

  lemma StartOf(c: Cluster)
    requires Begins(c)
    ensures c.store == Store.EMPTY_STORE && c.drawn == map[] && forall i :: 0 <= i < |c.replicas| ==> Starts(c.replicas[i])
  {
  }

  /** A move of the first replica that sends the store nothing. */
  lemma Moves(c: Cluster, m: Move)
    requires |c.replicas| == 2 && CanMove(c.replicas[0], m) && !m.Owes?
    requires m.Steps? ==> !(m.step.Deliver? && (m.step.delivery.Take? || m.step.delivery.WriteKill?))
    requires m.Steps? ==> !(m.step.Switch? && m.step.switch.SetterWrites?)
    ensures
      var a := OnReplica(0, m, 1);
      CanAct(c, a) && Acted(CAPS, Run(""), c, a) == c.(replicas := c.replicas[0 := Moved(CAPS, Run(""), c.replicas[0], m)])
  {
    hide CanMove, Moved;
  }

  lemma GapPath(c: Cluster, acts: seq<Act>, c1: Cluster) returns (acts': seq<Act>, c': Cluster)
    requires Leads(c, acts, c1) && Unordered(acts) && |c1.replicas| == 2 && Starts(c1.replicas[0])
    ensures Leads(c, acts', c') && Unordered(acts') && c'.store == c1.store && c'.drawn == c1.drawn && |c'.replicas| == 2
    ensures c'.replicas[0].queue.batch != [] && c'.replicas[0].queue.batch[0].cmd == WRITE_BACK
    ensures CanAct(c', OnReplica(0, Steps(Deliver(Take(Done))), 1))
  {
    hide Acted, CanAct, Leads, CanMove, Moved, Starts;
    acts', c' := acts, c1;
    GapOwesPause(c'.replicas[0]);
    acts', c' := ThenMoves(c, acts', c', Steps(Switch(Degrade(EMPTY))));
    acts', c' := ThenMoves(c, acts', c', Decides(1, ADMITTED));
    acts', c' := ThenMoves(c, acts', c', Decides(1, RECORDED));
    RecoverySends(c'.replicas[0], WRITE_BACK);
    acts', c' := ThenMoves(c, acts', c', Steps(Recover(Begin)));
    acts', c' := ThenMoves(c, acts', c', Steps(Deliver(Lock(Recoverer))));
    acts', c' := ThenMoves(c, acts', c', Steps(Deliver(TakeBatch)));
    AboutToTake(c');
  }

  lemma AboutToTake(c: Cluster)
    requires |c.replicas| == 2 && CanMove(c.replicas[0], Steps(Deliver(Take(Done))))
    ensures CanAct(c, OnReplica(0, Steps(Deliver(Take(Done))), 1)) && c.replicas[0].queue.batch != []
  {
  }

  lemma ThenMoves(c: Cluster, acts: seq<Act>, c1: Cluster, m: Move) returns (acts': seq<Act>, c': Cluster)
    requires Leads(c, acts, c1) && Unordered(acts) && |c1.replicas| == 2 && CanMove(c1.replicas[0], m) && !m.Owes?
    requires m.Steps? ==> !(m.step.Deliver? && (m.step.delivery.Take? || m.step.delivery.WriteKill?))
    requires m.Steps? ==> !(m.step.Switch? && m.step.switch.SetterWrites?)
    ensures Leads(c, acts', c') && Unordered(acts')
    ensures c' == c1.(replicas := c1.replicas[0 := Moved(CAPS, Run(""), c1.replicas[0], m)])
  {
    Moves(c1, m);
    acts', c' := Then(c, acts, c1, OnReplica(0, m, 1));
  }

  /** What the taking of the write-back makes of the store. */
  lemma Lands(c: Cluster)
    requires |c.replicas| == 2 && CanAct(c, OnReplica(0, Steps(Deliver(Take(Done))), 1))
    requires c.replicas[0].queue.batch != [] && c.replicas[0].queue.batch[0].cmd == WRITE_BACK
    ensures
      var c' := Acted(CAPS, Run(""), c, OnReplica(0, Steps(Deliver(Take(Done))), 1));
      && c'.store == Store.Exec(LIMITS, c.store, WRITE_BACK, 1) && c'.drawn == c.drawn && |c'.replicas| == 2
  {
    hide Store.Exec, Delivered;
    CapsInMicros();
  }

  /** The write-back stops the key for its day, and the next day's call goes through. */
  lemma CallGoesThrough(s: Store.State)
    requires StoppedOnReservation(s)
    ensures TotalStopped(s, KEY) && Overwrites(s, WRITE_BACK, KEY) && !TotalStopped(Store.Exec(LIMITS, s, WRITE_BACK, 1), KEY)
    ensures Store.Admit(LIMITS, Store.Exec(LIMITS, s, WRITE_BACK, 1), "", KEY, Store.Deciding, 2, FOURTH).1.ok
  {
    hide Store.Admit;
    OverwrittenPauseLetsThrough(LIMITS, s, WRITE_BACK, 1, "", KEY, 2, FOURTH);
  }

  /**
    From any start of two replicas, acts of theirs, none an operator's, lead to a key stopped in
    the store on its total cap; then a replica's write-back of its own daily pause lands, and the
    pause is a daily one; and the key's first call of the next day is served, nobody having
    resumed it.
   */
  lemma TotalPauseDoesNotWait(c: Cluster) returns (acts: seq<Act>, c1: Cluster, c2: Cluster, c3: Cluster)
    requires Begins(c) && |c.replicas| == 2
    ensures Leads(c, acts, c1) && Unordered(acts)
    ensures TotalStopped(c1.store, KEY)
    ensures
      var landing := OnReplica(0, Steps(Deliver(Take(Done))), 1);
      CanAct(c1, landing) && c2 == Acted(CAPS, Run(""), c1, landing) && !TotalStopped(c2.store, KEY)
    ensures CanAct(c2, Send(FOURTH, CALL)) && c3 == Acted(CAPS, Run(""), c2, Send(FOURTH, CALL))
    ensures CanAct(c3, Arrive(FOURTH, 2)) && FOURTH in Acted(CAPS, Run(""), c3, Arrive(FOURTH, 2)).asks
    ensures Acted(CAPS, Run(""), c3, Arrive(FOURTH, 2)).asks[FOURTH] == Said(true)
  {
    hide Acted, CanAct, Leads, Starts, Begins, Store.Exec, Store.Admit, TotalStopped, Overwrites, StoppedOnReservation;
    StartOf(c);
    acts, c1 := StorePath(c);
    acts, c1 := GapPath(c, acts, c1);
    CallGoesThrough(c1.store);
    Lands(c1);
    c2 := Acted(CAPS, Run(""), c1, OnReplica(0, Steps(Deliver(Take(Done))), 1));
    Asks(c2, FOURTH, 2);
    c3 := Acted(CAPS, Run(""), c2, Send(FOURTH, CALL));
  }
}

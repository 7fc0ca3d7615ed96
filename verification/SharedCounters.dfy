/**
  The critical sections of one replica, in place. What each does to the queue and the kill
  switch is the step of that name in Replica.dfy; a delivery run without interruption is here
  proved to be plain sending, one item after another, whatever its batches.
 */
module SharedCounters {
  import opened Control
  import opened Histories
  import opened Replica
  import opened RedisStore
  import Store

  /** The queue with its batch put back, the head sent and what remains put back again. */
  function FirstSent(q: Queue, fate: Fate): Queue
    requires q.batch == [] && q.owed != []
  {
    PutBack(HeadSent(q.(batch := [q.owed[0]], owed := q.owed[1..]), fate))
  }

  /** What a command makes of the store, by what became of it. */
  function StoreSent(l: Store.Limits, s: Store.State, cmd: Store.Command, fate: Fate, today: nat): Store.State {
    if Executed(fate) then Store.Exec(l, s, cmd, today) else s
  }

  /** A queue and the store it is owed to, and whether a delivery got to the end of the queue. */
  datatype Delivery = Delivery(q: Queue, s: Store.State, complete: bool)

  /** Everything owed sent in order, one by one, until one goes unanswered. */
  function SentInOrder(l: Store.Limits, q: Queue, s: Store.State, fates: seq<Fate>, today: nat): (r: Delivery)
    requires q.batch == [] && |q.owed| <= |fates|
    ensures r.q.batch == [] && (r.complete <==> r.q.owed == [])
    decreases |q.owed|
  {
    if q.owed == [] then Delivery(q, s, true)
    else
      var q1, s1 := FirstSent(q, fates[0]), StoreSent(l, s, q.owed[0].cmd, fates[0], today);
      if fates[0].Lost? then Delivery(q1, s1, false) else SentInOrder(l, q1, s1, fates[1..], today)
  }

  /** Sending the head of a batch is sending the head of the queue with the batch put back. */
  lemma BatchesMakeNoDifference(q: Queue, fate: Fate)
    requires q.batch != []
    ensures PutBack(q).owed[0] == q.batch[0]
    ensures PutBack(HeadSent(q, fate)) == FirstSent(PutBack(q), fate)
  {
    var q1 := PutBack(q);
    assert q1.owed[1..] == q.batch[1..] + q.owed;
    assert [q1.owed[0]] + q1.owed[1..] == q1.owed;
    assert HeadRan(q).(batch := [], owed := []) == HeadRan(q1.(batch := [q1.owed[0]])).(batch := [], owed := []);
    if fate.Lost? {
      assert PutBack(HeadSent(q, fate)).owed == q1.owed;
    }
  }

  /** Sending the head of a batch is the next thing that sending in order does. */
  lemma SendsNext(l: Store.Limits, q: Queue, s: Store.State, fates: seq<Fate>, today: nat)
    requires q.batch != [] && |q.batch| + |q.owed| <= |fates|
    ensures
      var q1, s1 := HeadSent(q, fates[0]), StoreSent(l, s, q.batch[0].cmd, fates[0], today);
      && |PutBack(q1).owed| == |q.batch| + |q.owed| - (if fates[0].Lost? then 0 else 1)
      && (fates[0].Lost? ==> q1.batch == [])
      && SentInOrder(l, PutBack(q), s, fates, today)
         == if fates[0].Lost? then Delivery(PutBack(q1), s1, false)
            else SentInOrder(l, PutBack(q1), s1, fates[1..], today)
  {
    hide StoreSent;
    BatchesMakeNoDifference(q, fates[0]);
  }

  lemma EmptyBatch(q: Queue)
    requires q.batch == []
    ensures PutBack(q) == q
  {
    assert q.batch + q.owed == q.owed;
  }

  lemma BatchPutBack(q: Queue)
    requires q.batch == []
    ensures PutBack(BatchTaken(q)) == q && |BatchTaken(q).batch| + |BatchTaken(q).owed| == |q.owed|
  {
    assert BatchTaken(q).batch + BatchTaken(q).owed == q.owed;
  }

  /** A delivery of which nothing is lost leaves nothing owed. */
  lemma {:induction false} AllAnsweredLeavesNothing(l: Store.Limits, q: Queue, s: Store.State, fates: seq<Fate>, today: nat)
    requires q.batch == [] && |q.owed| <= |fates| && (forall i :: 0 <= i < |q.owed| ==> !fates[i].Lost?)
    ensures SentInOrder(l, q, s, fates, today).complete
    ensures var q' := SentInOrder(l, q, s, fates, today).q; |q'.taken| + |q'.refused| == |q.taken| + |q.refused| + |q.owed|
    decreases |q.owed|
  {
    if q.owed != [] {
      var q1 := FirstSent(q, fates[0]);
      AllAnsweredLeavesNothing(l, q1, StoreSent(l, s, q.owed[0].cmd, fates[0], today), fates[1..], today);
    }
  }

  /** The scripts of a delivery that the store carries out: each item's in turn, up to one that goes unanswered. */
  function CarriedOut(cmds: seq<Store.Command>, fates: seq<Fate>, today: nat): seq<Store.Script>
    requires |cmds| <= |fates|
  {
    if cmds == [] then []
    else
      (if fates[0].Done? || (fates[0].Lost? && fates[0].executed) then [Store.Does(cmds[0], today)] else [])
      + (if fates[0].Lost? then [] else CarriedOut(cmds[1..], fates[1..], today))
  }

  /** What a delivery makes of the store is what those scripts do, in the order the items were owed. */
  lemma {:induction false} DeliveryRuns(l: Store.Limits, q: Queue, s: Store.State, fates: seq<Fate>, today: nat)
    requires q.batch == [] && |q.owed| <= |fates|
    ensures SentInOrder(l, q, s, fates, today).s == Store.RanAll(l, s, CarriedOut(Commands(q.owed), fates, today))
    decreases |q.owed|
  {
    if q.owed != [] {
      var q1, s1 := FirstSent(q, fates[0]), StoreSent(l, s, q.owed[0].cmd, fates[0], today);
      var cmds := Commands(q.owed);
      assert cmds[0] == q.owed[0].cmd && cmds[1..] == Commands(q.owed[1..]);
      hide Store.Exec;
      if fates[0].Lost? {
        assert CarriedOut(cmds, fates, today) == if fates[0].executed then [Store.Does(cmds[0], today)] else [];
      } else {
        FirstLeaves(q, fates[0]);
        DeliveryRuns(l, q1, s1, fates[1..], today);
        var more := CarriedOut(cmds[1..], fates[1..], today);
        assert fates[0].Done? ==> ([Store.Does(cmds[0], today)] + more)[1..] == more;
        assert fates[0].Refusal? ==> [] + more == more;
      }
    }
  }

  lemma FirstLeaves(q: Queue, fate: Fate)
    requires q.batch == [] && q.owed != [] && !fate.Lost?
    ensures FirstSent(q, fate).owed == q.owed[1..] && FirstSent(q, fate).batch == []
  {
  }

  /** A key found paused in the store: why, whether for the day, and which day that was. */
  datatype KeyPauseNote = KeyPauseNote(reason: Reason, daily: bool, day: nat)

  /** A pause seen elsewhere, as a fresh controller holds it. */
  function MarkedRun(reason: Reason): RunState {
    FRESH_RUN.(paused := true, reason := reason)
  }

  function MarkedKey(note: KeyPauseNote, now: nat): KeyState {
    FreshKey(DayOf(now)).(paused := true, reason := note.reason, dayPause := note.daily, lastSeen := now)
  }

  /** A daily pause counts on its own day only. */
  predicate StillHolds(note: KeyPauseNote, now: nat) {
    !note.daily || DayOf(now) <= note.day
  }

  function MarkedRuns(seen: map<string, Reason>): map<string, RunState> {
    map id | id in seen :: MarkedRun(seen[id])
  }

  function MarkedKeys(seen: map<string, KeyPauseNote>, now: nat): map<string, KeyState> {
    map id | id in seen && StillHolds(seen[id], now) :: MarkedKey(seen[id], now)
  }

  /** A controller that has decided nothing, with the pauses noted. */
  function Fresh(killed: bool, pausedSeen: map<string, Reason>, keysSeen: map<string, KeyPauseNote>, now: nat): Ctl {
    Ctl(killed, MarkedRuns(pausedSeen), MarkedKeys(keysSeen, now), [])
  }

  /**
    A fresh fallback, built at `now`, turns away a run noted, with the reason noted; and a key noted,
    if the note is not for a day, or is for today or later and today is not over; every other call it
    answers as a controller would that knows of nothing.
   */
  lemma NotedAreRefused(
    p: Policy, pausedSeen: map<string, Reason>, keysSeen: map<string, KeyPauseNote>, now: nat, run: string, key: string, at: nat)
    requires !p.shadow
    ensures
      AdmitCall(p, Fresh(false, pausedSeen, keysSeen, now), run, key, false, at).reply
      == if run != "" && run in pausedSeen then Reply(false, pausedSeen[run])
         else if key != "" && key in keysSeen
                 && (keysSeen[key].daily ==> now / DAY <= keysSeen[key].day && at / DAY <= now / DAY) then
           Reply(false, keysSeen[key].reason)
         else AdmitCall(p, EMPTY, run, key, false, at).reply
  {
    hide RunLimit, KeyLimit, Decide, Touch;
    var c := Fresh(false, pausedSeen, keysSeen, now);
    NotedRecords(pausedSeen, keysSeen, now, run, key, at);
    AnsweredByRecords(p, c, run, key, at);
    AnsweredByRecords(p, EMPTY, run, key, at);
  }

  /** What a controller without kill or shadow answers rests on the two records alone. */
  lemma AnsweredByRecords(p: Policy, c: Ctl, run: string, key: string, at: nat)
    requires !p.shadow && !c.killed
    ensures
      var st, ks := RunOf(c, run), KeyAt(c, key, at);
      AdmitCall(p, c, run, key, false, at).reply
      == if run != "" && st.paused then Reply(false, st.reason)
         else if key != "" && ks.paused then Reply(false, ks.reason)
         else if key != "" && KeyLimit(p, key, ks) != NoReason then Reply(false, KeyLimit(p, key, ks))
         else if run != "" && RunLimit(p, st.(lastSeen := at)) != NoReason then Reply(false, RunLimit(p, st.(lastSeen := at)))
         else Reply(true, NoReason)
  {
    hide RunLimit, KeyLimit, Reserve, KeyAt;
  }

  /** The records a fresh fallback looks at: paused as noted, or those of a controller that knows of nothing. */
  lemma NotedRecords(
    pausedSeen: map<string, Reason>, keysSeen: map<string, KeyPauseNote>, now: nat, run: string, key: string, at: nat)
    ensures
      var c := Fresh(false, pausedSeen, keysSeen, now);
      RunOf(c, run) == if run in pausedSeen then FRESH_RUN.(paused := true, reason := pausedSeen[run]) else FRESH_RUN
    ensures
      var ks := KeyAt(Fresh(false, pausedSeen, keysSeen, now), key, at);
      if key in keysSeen && (keysSeen[key].daily ==> now / DAY <= keysSeen[key].day && at / DAY <= now / DAY) then
        ks.paused && ks.reason == keysSeen[key].reason
      else ks == KeyAt(EMPTY, key, at)
  {
  }

  /** It holds the runs and keys noted that still count, each paused with its reason, touched now, and nothing else. */
  lemma FreshHolds(killed: bool, pausedSeen: map<string, Reason>, keysSeen: map<string, KeyPauseNote>, now: nat)
    ensures Seed(Fresh(killed, pausedSeen, keysSeen, now), killed)
    ensures
      var c := Fresh(killed, pausedSeen, keysSeen, now);
      && c.runs.Keys == pausedSeen.Keys
      && (forall id :: id in c.runs ==> c.runs[id] == RunState(0, 0, 0.0, 0.0, true, pausedSeen[id], 0))
      && (forall id :: id in c.keys <==> id in keysSeen && (keysSeen[id].daily ==> now / DAY <= keysSeen[id].day))
      && (forall id :: id in c.keys ==>
            c.keys[id] == KeyState(now / DAY, 0, 0.0, 0, 0.0, 0, true, keysSeen[id].reason, keysSeen[id].daily, now))
  {
  }

  method MarkRuns(c: Ctl, seen: map<string, Reason>) returns (r: Ctl)
    requires c.runs == map[]
    ensures r == c.(runs := MarkedRuns(seen))
  {
    r := c;
    var todo := seen.Keys;
    while todo != {}
      invariant todo <= seen.Keys && r == c.(runs := MarkedRuns(seen - todo))
      decreases |todo|
    {
      var id :| id in todo;
      r := SetRun(r, id, RunOf(r, id).(paused := true, reason := seen[id]));
      todo := todo - {id};
    }
    assert seen - todo == seen;
  }

  method MarkKeys(c: Ctl, seen: map<string, KeyPauseNote>, now: nat) returns (r: Ctl)
    requires c.keys == map[]
    ensures r == c.(keys := MarkedKeys(seen, now))
  {
    r := c;
    var todo := seen.Keys;
    while todo != {}
      invariant todo <= seen.Keys && r == c.(keys := MarkedKeys(seen - todo, now))
      decreases |todo|
    {
      var id :| id in todo;
      if StillHolds(seen[id], now) {
        r := SetKey(r, id, KeyAt(r, id, now).(paused := true, reason := seen[id].reason, dayPause := seen[id].daily));
      }
      todo := todo - {id};
    }
    assert seen - todo == seen;
  }

  /** A new fallback, which knows of the past only the kill switch and who was seen paused. */
  method FreshFallback(killed: bool, pausedSeen: map<string, Reason>, keysSeen: map<string, KeyPauseNote>, now: nat)
    returns (c: Ctl)
    ensures Seed(c, killed)
    ensures c == Fresh(killed, pausedSeen, keysSeen, now)
  {
    c := MarkRuns(EMPTY.(killed := killed), pausedSeen);
    c := MarkKeys(c, keysSeen, now);
  }

  function Commands(items: seq<Item>): (r: seq<Store.Command>) {
    seq(|items|, i requires 0 <= i < |items| => items[i].cmd)
  }

  /**
    A replica's own fields. As history, `queue` is the queue with what became of its items, `built`
    every fallback ever built, and `standing` where the replica's goroutines stand.
   */
  class SharedCounter {
    const limits: Store.Limits
    const store: Redis
    var degraded: bool
    var local: Ctl
    var pausedSeen: map<string, Reason>
    var keysSeen: map<string, KeyPauseNote>
    var killed: bool
    var killDirty: bool
    var killGen: nat
    var owed: seq<Store.Command>
    var dropped: nat
    var refused: nat
    ghost var queue: Queue
    ghost var built: seq<Fallback>
    ghost var standing: Replica

    /** The queue as it is owed, but for what a delivery still holds of its batch. */
    ghost predicate Holding(batch: seq<Store.Command>)
      reads this
    {
      && owed == Commands(queue.owed) && batch == Commands(queue.batch)
      && dropped == |queue.dropped| && refused == |queue.refused|
    }

    /** The fallback in use is the last one built. */
    ghost predicate Linked()
      reads this
    {
      built != [] && built[|built| - 1].ctl == local
    }

    ghost predicate Valid()
      reads this
    {
      Holding([]) && Linked()
    }

    /** The replica these fields are of. */
    ghost function View(): Replica
      reads this
    {
      standing.(degraded := degraded, fallbacks := built, queue := queue,
                kill := standing.kill.(on := killed, dirty := killDirty, gen := killGen))
    }

    constructor (l: Store.Limits, redis: Redis)
      ensures Valid() && Starts(View()) && limits == l && store == redis
    {
      limits, store := l, redis;
      degraded, local, pausedSeen, keysSeen := false, EMPTY, map[], map[];
      killed, killDirty, killGen := false, false, 0;
      owed, dropped, refused, queue := [], 0, 0, NO_QUEUE;
      built := [Fallback(EMPTY, false, NEW_LEDGER)];
      standing := Replica(false, [], Kill(false, false, 0, false, []), NO_QUEUE, false, NoRecovery, Nobody, Draining);
    }

    // Switch and fallback.

    /** Switches to a fresh fallback, which owes the store its pauses; a counter in a gap stays in it. */
    method Degrade(now: nat) returns (ghost seed: Ctl)
      requires Valid()
      modifies this`degraded, this`local, this`built
      ensures Valid()
      ensures if old(degraded) then View() == old(View())
              else CanSwitch(old(View()), SwitchStep.Degrade(seed)) && View() == Switched(old(View()), SwitchStep.Degrade(seed))
      ensures !old(degraded) ==> local == seed == Fresh(killed, pausedSeen, keysSeen, now)
    {
      seed := EMPTY;
      if degraded {
        return;
      }
      degraded := true;
      local := FreshFallback(killed, pausedSeen, keysSeen, now);
      seed := local;
      built := built + [Fallback(local, true, NEW_LEDGER)];
    }

    /** The gap is over: a new fallback that decides nothing, and the store's switch, if the one here is clean. */
    method HandBack(storeKilled: bool, now: nat) returns (ghost seed: Ctl)
      requires Valid() && standing.recovery == Swapping(storeKilled)
      modifies this`degraded, this`local, this`built, this`killed, this`standing
      ensures Valid()
      ensures CanRecover(old(View()), Swap(seed)) && View() == Recovered(old(View()), Swap(seed))
      ensures local == seed == Fresh(killed, pausedSeen, keysSeen, now)
    {
      if !killDirty {
        killed := storeKilled;
      }
      local := FreshFallback(killed, pausedSeen, keysSeen, now);
      degraded := false;
      seed := local;
      built, standing := built + [Fallback(local, false, NEW_LEDGER)], standing.(recovery := Last);
    }

    /** What an operator's call does before it writes: outside a gap the write is still to come. */
    method SetKilled(on: bool) returns (gap: bool)
      requires Valid()
      modifies this`local, this`built, this`killed, this`killDirty, this`killGen, this`standing
      ensures Valid() && View() == Switched(old(View()), SetKill(on)) && gap == degraded
    {
      killed, killDirty, killGen := on, true, killGen + 1;
      local := local.(killed := on);
      ghost var last := |built| - 1;
      built := built[last := built[last].(ctl := local)];
      ghost var setters := if degraded then standing.kill.setters else standing.kill.setters + [ToWrite(on, killGen)];
      standing := standing.(kill := standing.kill.(lastSet := on, setters := setters));
      gap := degraded;
    }

    /** Follows the store's switch while the one here is clean. */
    method MirrorKill(on: bool)
      requires Valid()
      modifies this`local, this`built, this`killed
      ensures Valid() && View() == Switched(old(View()), Mirror(on))
    {
      if !killDirty && killed != on {
        killed := on;
        local := local.(killed := on);
        ghost var last := |built| - 1;
        built := built[last := built[last].(ctl := local)];
      }
    }

    // What is owed.

    method Owe(cmd: Store.Command)
      requires Valid()
      modifies this`owed, this`dropped, this`queue
      ensures Valid() && View() == old(View()).(queue := Enqueued(old(queue), cmd))
    {
      if |owed| >= MAX_OWED {
        owed := owed[1..];
        dropped := dropped + 1;
      }
      owed := owed + [cmd];
      queue := Enqueued(queue, cmd);
    }

    /** Sends one command to the store, which answers as `fate` says. */
    method Take(cmd: Store.Command, fate: Fate, today: nat)
      modifies store
      ensures store.State() == StoreSent(limits, old(store.State()), cmd, fate, today)
    {
      if Executed(fate) {
        match cmd {
          case DoRecord(run, key, tok, cost, loop) =>
            if Store.IsSettlement(cmd) {
              store.Record(limits, run, key, cost, loop, today, tok);
            }
          case DoRelease(run, key, tok) =>
            if Store.IsSettlement(cmd) {
              store.Release(run, key, tok);
            }
          case DoSetCap(run, cap) => store.SetCap(run, cap);
          case DoResumeRun(run) => var _ := store.ResumeRun(run);
          case DoResumeKey(key) => var _ := store.ResumeKey(key);
          case DoPauseRun(run, reason) => store.WriteRunPause(run, reason);
          case DoPauseKey(key, reason, day, onDay) => store.WriteKeyPause(key, reason, day, onDay);
        }
      }
    }

    /** A dirty switch is written ahead of the queue. */
    method DeliverKill(fate: Fate) returns (ok: bool)
      modifies this`killDirty, store`killed
      ensures ok == (old(killDirty) ==> !fate.Lost?)
      ensures killDirty == (old(killDirty) && fate.Lost?)
      ensures store.State() == if old(killDirty) && Executed(fate) then Store.SetKilled(old(store.State()), killed)
                               else old(store.State())
    {
      ok := true;
      if killDirty {
        var gen := killGen;
        if Executed(fate) {
          store.SetKilled(killed);
        }
        if fate.Lost? {
          return false;
        }
        if killGen == gen {
          killDirty := false;
        }
      }
    }

    /** Sends the head of what is left of a batch; if it goes unanswered, all that is left is put back. */
    method SendHead(batch: seq<Store.Command>, fate: Fate, today: nat)
      requires Holding(batch) && batch != []
      modifies this`owed, this`refused, this`queue, store
      ensures queue == HeadSent(old(queue), fate) && Holding(if fate.Lost? then [] else batch[1..])
      ensures store.State() == StoreSent(limits, old(store.State()), old(queue.batch)[0].cmd, fate, today)
    {
      Take(batch[0], fate, today);
      if fate.Lost? {
        owed := batch + owed;
      } else if fate.Refusal? {
        refused := refused + 1;
      }
      queue := HeadSent(queue, fate);
    }

    /** Sends a batch, item by item, until one goes unanswered. */
    method SendBatch(batch: seq<Store.Command>, fates: seq<Fate>, today: nat) returns (ok: bool, rest: seq<Fate>)
      requires Holding(batch) && Linked() && |queue.batch| + |queue.owed| <= |fates|
      modifies this`owed, this`refused, this`queue, store
      ensures Valid() && (ok ==> |queue.owed| <= |rest| && |queue.owed| == |old(queue.owed)|)
      ensures SentInOrder(limits, PutBack(old(queue)), old(store.State()), fates, today)
           == if ok then SentInOrder(limits, queue, store.State(), rest, today) else Delivery(queue, store.State(), false)
    {
      hide SentInOrder, StoreSent, HeadSent;
      var i := 0;
      rest := fates;
      while i < |batch|
        invariant 0 <= i <= |batch| && Holding(batch[i..]) && |queue.owed| == |old(queue.owed)|
        invariant |PutBack(queue).owed| <= |rest|
        invariant SentInOrder(limits, PutBack(old(queue)), old(store.State()), fates, today)
               == SentInOrder(limits, PutBack(queue), store.State(), rest, today)
      {
        SendsNext(limits, queue, store.State(), rest, today);
        SendHead(batch[i..], rest[0], today);
        if rest[0].Lost? {
          EmptyBatch(queue);
          return false, rest;
        }
        i, rest := i + 1, rest[1..];
      }
      ok := true;
      EmptyBatch(queue);
    }

    /** Takes a batch from the front of the queue and sends it. */
    method DeliverBatch(fates: seq<Fate>, today: nat) returns (ok: bool, rest: seq<Fate>)
      requires Valid() && owed != [] && |owed| <= |fates|
      modifies this`owed, this`refused, this`queue, store
      ensures Valid() && (ok ==> |owed| < |old(owed)| && |owed| <= |rest|)
      ensures SentInOrder(limits, old(queue), old(store.State()), fates, today)
           == if ok then SentInOrder(limits, queue, store.State(), rest, today) else Delivery(queue, store.State(), false)
    {
      hide SentInOrder, PutBack, StoreSent, HeadSent;
      var k := if |owed| > FLUSH_BATCH then FLUSH_BATCH else |owed|;
      var batch := owed[..k];
      owed := owed[k..];
      BatchPutBack(queue);
      queue := BatchTaken(queue);
      ok, rest := SendBatch(batch, fates, today);
    }

    /**
      Sends everything owed, a batch at a time, until something goes unanswered. It comes to
      sending the items one by one.
     */
    method DeliverOwed(fates: seq<Fate>, today: nat) returns (ok: bool)
      requires Valid() && |owed| <= |fates|
      modifies this`owed, this`refused, this`queue, store
      ensures Valid()
      ensures Delivery(queue, store.State(), ok) == SentInOrder(limits, old(queue), old(store.State()), fates, today)
    {
      var rest := fates;
      while owed != []
        invariant Valid() && |owed| <= |rest|
        invariant SentInOrder(limits, old(queue), old(store.State()), fates, today)
               == SentInOrder(limits, queue, store.State(), rest, today)
        decreases |owed|
      {
        ok, rest := DeliverBatch(rest, today);
        if !ok {
          return;
        }
      }
      ok := true;
    }

    /**
      The kill switch, then everything owed. The queue is sent to a store that has what became of the switch;
      if the switch's write goes unanswered the switch stays dirty and nothing of the queue is sent.
     */
    method Deliver(killFate: Fate, fates: seq<Fate>, today: nat) returns (ok: bool)
      requires Valid() && |owed| <= |fates|
      modifies this`killDirty, this`owed, this`refused, this`queue, store
      ensures Valid() && killDirty == (old(killDirty) && killFate.Lost?)
      ensures
        var written := if old(killDirty) && Executed(killFate) then Store.SetKilled(old(store.State()), killed)
                       else old(store.State());
        if killDirty then !ok && queue == old(queue) && store.State() == written
        else Delivery(queue, store.State(), ok) == SentInOrder(limits, old(queue), written, fates, today)
    {
      ok := DeliverKill(killFate);
      if ok {
        ok := DeliverOwed(fates, today);
      }
    }
  }
}

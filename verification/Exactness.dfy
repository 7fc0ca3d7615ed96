/**
  What the store knows and what the replicas know agree: every settlement takes effect once,
  and every reservation not yet settled is held by someone.
 */
module Exactness {
  import opened Control
  import opened Histories
  import opened Replica
  import opened Clusters
  import opened StoreLedger
  import Store

  // The store, as far as the tokens of one place go: a run's, or those of a bucket of calls without one.

  function ServedIn(s: Store.State, x: Store.Place): set<Store.Token> {
    ServedTokens(Store.TokensIn(s, x))
  }

  function SettledIn(s: Store.State, x: Store.Place): set<Store.Token> {
    Store.TokensIn(s, x).settled
  }

  lemma ReserveServes(s: Store.State, run: string, key: string, tok: Store.Token, forced: bool, x: Store.Place)
    requires Store.IsPlace(x)
    ensures
      var s' := Store.Reserve(s, run, key, tok, forced);
      && ServedIn(s', x) == ServedIn(s, x) + (if Store.PlaceOf(run, key, tok) == x then {tok} else {})
      && SettledIn(s', x) == SettledIn(s, x) && GivenBack(s'.log, x) == GivenBack(s.log, x)
  {
    hide Store.Reserve, GivenBack, ServedTokens;
    ReserveTokens(s, run, key, tok, forced, x);
    ReserveLogs(s, run, key, tok, forced);
    LogGrows(s.log, Store.Admitted(run, key, tok, forced), x);
    OneMoreServed(Store.TokensIn(s, x), tok);
  }

  lemma RefusalServesNone(s: Store.State, run: string, key: string, tok: Store.Token, code: Store.Code, x: Store.Place)
    requires Store.IsPlace(x) && tok !in Store.TokensAt(s, run, key, tok).admits
    ensures
      var s' := Store.MarkAdmit(s, run, key, tok, Store.Refused(code));
      ServedIn(s', x) == ServedIn(s, x) && SettledIn(s', x) == SettledIn(s, x) && s'.log == s.log
  {
    hide ServedTokens;
    if Store.PlaceOf(run, key, tok) == x {
      RefusedMark(Store.TokensIn(s, x), tok, code);
    }
  }

  /** The state a verdict leaves before the reservation or the mark. */
  function Paused(s: Store.State, v: Store.Verdict, run: string, key: string): Store.State {
    match v
    case StopsKey(code) => Store.PauseKey(s, key, code)
    case StopsRun(code) => Store.PauseRun(s, run, code)
    case _ => s
  }

  lemma PausingServesNone(s: Store.State, v: Store.Verdict, run: string, key: string, tok: Store.Token, x: Store.Place)
    ensures
      var s' := Paused(s, v, run, key);
      && Store.TokensIn(s', x) == Store.TokensIn(s, x) && s'.log == s.log
      && Store.TokensAt(s', run, key, tok) == Store.TokensAt(s, run, key, tok)
  {
  }

  lemma CarryServes(
    s: Store.State, v: Store.Verdict, run: string, key: string, mode: Store.Mode, tok: Store.Token, x: Store.Place)
    requires Store.IsPlace(x) && tok !in Store.TokensAt(s, run, key, tok).admits
    ensures
      var (s', answer) := Store.Carry(s, v, run, key, mode, tok);
      && ServedIn(s', x) == ServedIn(s, x) + (if answer.ok && Store.PlaceOf(run, key, tok) == x then {tok} else {})
      && SettledIn(s', x) == SettledIn(s, x) && GivenBack(s'.log, x) == GivenBack(s.log, x)
  {
    hide Store.Reserve, Store.MarkAdmit, Store.PauseRun, Store.PauseKey, GivenBack, ServedTokens, Store.TokensAt;
    var s1 := Paused(s, v, run, key);
    PausingServesNone(s, v, run, key, tok, x);
    ReserveServes(s1, run, key, tok, mode == Store.Bypassing, x);
    if v.StopsKey? || v.StopsRun? {
      RefusalServesNone(s1, run, key, tok, v.code, x);
    }
  }

  /** What the admission script does to the tokens of x: it serves the one it was sent, or changes nothing. */
  lemma ArrivalServes(l: Store.Limits, s: Store.State, ask: Ask, mode: Store.Mode, today: nat, tok: Store.Token, x: Store.Place)
    requires Store.IsPlace(x) && (ask.run != "" || ask.key != "")
    ensures
      var (s', answer) := Store.Admit(l, s, ask.run, ask.key, mode, today, tok);
      && ServedIn(s', x) == ServedIn(s, x) + (if answer.ok && Store.PlaceOf(ask.run, ask.key, tok) == x then {tok} else {})
      && (Store.PlaceOf(ask.run, ask.key, tok) == x && !answer.ok ==> tok !in ServedIn(s, x))
      && SettledIn(s', x) == SettledIn(s, x) && GivenBack(s'.log, x) == GivenBack(s.log, x)
  {
    hide Store.VerdictOf, Store.Carry, Store.RollKey, GivenBack;
    var s1 := Store.RollKey(s, ask.key, today);
    RollTokens(s, ask.key, today, x);
    RollTokens(s, ask.key, today, Store.PlaceOf(ask.run, ask.key, tok));
    if tok !in Store.TokensAt(s, ask.run, ask.key, tok).admits && !s.killed {
      CarryServes(s1, Store.VerdictOf(l, s1, ask.run, ask.key, mode), ask.run, ask.key, mode, tok, x);
    }
  }

  predicate SettlesOn(cmd: Store.Command, x: Store.Place) {
    Settling(cmd) && Store.PlaceOf(cmd.run, cmd.key, cmd.tok) == x
  }

  lemma RecordSettles(
    l: Store.Limits, s: Store.State, run: string, key: string, cost: int, loop: bool, today: nat, tok: Store.Token,
    x: Store.Place)
    requires Store.IsPlace(x) && (run != "" || key != "")
    ensures
      var s' := Store.Record(l, s, run, key, cost, loop, today, tok);
      && ServedIn(s', x) == ServedIn(s, x)
      && SettledIn(s', x) == SettledIn(s, x) + (if Store.PlaceOf(run, key, tok) == x then {tok} else {})
      && GivenBack(s'.log, x) == GivenBack(s.log, x)
  {
    hide GivenBack;
    if !Store.IsSettled(s, run, key, tok) {
      hide Store.Record;
      RecordTokens(l, s, run, key, cost, loop, today, tok, x);
      RecordLogs(l, s, run, key, cost, loop, today, tok);
      LogGrows(s.log, Store.Recorded(run, key, tok, cost), x);
    }
  }

  lemma ReleaseSettles(s: Store.State, run: string, key: string, tok: Store.Token, x: Store.Place)
    requires Store.IsPlace(x) && (run != "" || key != "")
    ensures
      var s' := Store.Release(s, run, key, tok);
      && ServedIn(s', x) == ServedIn(s, x)
      && SettledIn(s', x) == SettledIn(s, x) + (if Store.PlaceOf(run, key, tok) == x then {tok} else {})
      && GivenBack(s'.log, x) <= GivenBack(s.log, x) + (if Store.PlaceOf(run, key, tok) == x then {tok} else {})
  {
    hide GivenBack;
    if !Store.IsSettled(s, run, key, tok) {
      hide Store.Release;
      ReleaseTokens(s, run, key, tok, x);
      LogGrows(s.log, Store.Released(run, key, tok), x);
    }
  }

  lemma ResumeSettlesNone(s: Store.State, run: string, x: Store.Place)
    ensures
      var s' := Store.ResumeRun(s, run);
      Store.TokensIn(s', x) == Store.TokensIn(s, x) && GivenBack(s'.log, x) == GivenBack(s.log, x)
  {
    hide GivenBack;
    LogGrows(s.log, Store.Wiped(run), x);
  }

  /** What a command does to the tokens of x: it settles the one it names, or changes nothing. */
  lemma ExecutionSettles(l: Store.Limits, s: Store.State, cmd: Store.Command, today: nat, x: Store.Place)
    requires Store.IsPlace(x)
    ensures
      var s' := Store.Exec(l, s, cmd, today);
      && ServedIn(s', x) == ServedIn(s, x)
      && SettledIn(s', x) == SettledIn(s, x) + (if SettlesOn(cmd, x) then {cmd.tok} else {})
      && GivenBack(s'.log, x) <= GivenBack(s.log, x) + (if SettlesOn(cmd, x) && cmd.DoRelease? then {cmd.tok} else {})
  {
    hide Store.Record, Store.Release, Store.ResumeRun, GivenBack, ServedTokens;
    match cmd {
      case DoRecord(run, key, tok, cost, loop) =>
        if Store.IsSettlement(cmd) {
          RecordSettles(l, s, run, key, cost, loop, today, tok, x);
        }
      case DoRelease(run, key, tok) =>
        if Store.IsSettlement(cmd) {
          ReleaseSettles(s, run, key, tok, x);
        }
      case DoResumeRun(run) => ResumeSettlesNone(s, run, x);
      case _ =>
    }
  }

  // The queues.

  /** A settlement at x names a token served there, and gives back only a call that was given back. */
  predicate ItemTrue(it: Item, served: set<Store.Token>, freed: set<Store.Token>, x: Store.Place) {
    SettlesOn(it.cmd, x) ==> it.cmd.tok in served && (it.cmd.DoRelease? ==> it.cmd.tok in freed)
  }

  ghost predicate QueueTrue(q: Queue, served: set<Store.Token>, freed: set<Store.Token>, x: Store.Place) {
    && (forall it <- q.batch :: ItemTrue(it, served, freed, x))
    && (forall it <- q.owed :: ItemTrue(it, served, freed, x))
  }

  /** A settlement of the token is in the queue or a batch, or was refused or dropped. */
  ghost predicate Holds(q: Queue, x: Store.Place, tok: Store.Token) {
    exists it ::
      && (it in q.batch || it in q.owed || it in q.refused || it in q.dropped)
      && SettlesOn(it.cmd, x) && it.cmd.tok == tok
  }

  lemma EnqueuingKeeps(q: Queue, cmd: Store.Command, served: set<Store.Token>, freed: set<Store.Token>, x: Store.Place)
    requires QueueTrue(q, served, freed, x) && ItemTrue(Item(|q.all|, cmd), served, freed, x)
    ensures QueueTrue(Enqueued(q, cmd), served, freed, x)
  {
  }

  lemma EnqueuingHolds(q: Queue, cmd: Store.Command, x: Store.Place, tok: Store.Token)
    ensures Holds(q, x, tok) ==> Holds(Enqueued(q, cmd), x, tok)
    ensures SettlesOn(cmd, x) ==> Holds(Enqueued(q, cmd), x, cmd.tok)
  {
    var q' := Enqueued(q, cmd);
    assert Item(|q.all|, cmd) in q'.owed;
    if Holds(q, x, tok) {
      var it :|
        (it in q.batch || it in q.owed || it in q.refused || it in q.dropped) && SettlesOn(it.cmd, x) && it.cmd.tok == tok;
      assert it in q'.batch || it in q'.owed || it in q'.refused || it in q'.dropped;
    }
  }

  lemma SendingKeeps(q: Queue, fate: Fate, served: set<Store.Token>, freed: set<Store.Token>, x: Store.Place)
    requires q.batch != [] && QueueTrue(q, served, freed, x)
    ensures QueueTrue(HeadSent(q, fate), served, freed, x)
    ensures ItemTrue(q.batch[0], served, freed, x)
  {
  }

  lemma SendingHolds(q: Queue, fate: Fate, x: Store.Place, tok: Store.Token)
    requires q.batch != [] && Holds(q, x, tok)
    ensures Holds(HeadSent(q, fate), x, tok)
         || (fate.Done? && SettlesOn(q.batch[0].cmd, x) && q.batch[0].cmd.tok == tok)
  {
    var q' := HeadSent(q, fate);
    var it :|
      (it in q.batch || it in q.owed || it in q.refused || it in q.dropped) && SettlesOn(it.cmd, x) && it.cmd.tok == tok;
    assert q.batch == [q.batch[0]] + q.batch[1..];
    assert (fate.Done? && it == q.batch[0]) || it in q'.batch || it in q'.owed || it in q'.refused || it in q'.dropped;
  }

  lemma BatchingHolds(q: Queue, x: Store.Place, tok: Store.Token)
    requires q.batch == [] && Holds(q, x, tok)
    ensures Holds(BatchTaken(q), x, tok)
  {
    var q' := BatchTaken(q);
    var it :|
      (it in q.batch || it in q.owed || it in q.refused || it in q.dropped) && SettlesOn(it.cmd, x) && it.cmd.tok == tok;
    assert q.owed == q'.batch + q'.owed;
  }

  /** Queues a replica's own move may leave, from q: each keeps what q promises and holds what q held. */
  ghost predicate Succeeds(q: Queue, q': Queue, x: Store.Place) {
    && (forall served, freed :: QueueTrue(q, served, freed, x) ==> QueueTrue(q', served, freed, x))
    && (forall tok :: Holds(q, x, tok) ==> Holds(q', x, tok))
  }

  lemma {:induction false} OwingSucceeds(rep: Replica, evs: seq<StopEvent>, x: Store.Place)
    ensures Succeeds(rep.queue, OweAll(rep, evs).queue, x)
    decreases |evs|
  {
    hide Enqueued, QueueTrue, Holds;
    if evs != [] {
      EnqueuingSucceeds(rep.queue, PauseOf(evs[0]), x);
      OwingSucceeds(Owe(rep, PauseOf(evs[0])), evs[1..], x);
    }
  }

  lemma EnqueuingSucceeds(q: Queue, cmd: Store.Command, x: Store.Place)
    requires !Settling(cmd)
    ensures Succeeds(q, Enqueued(q, cmd), x)
  {
    hide Enqueued, QueueTrue, Holds;
    forall served, freed | QueueTrue(q, served, freed, x) ensures QueueTrue(Enqueued(q, cmd), served, freed, x) {
      EnqueuingKeeps(q, cmd, served, freed, x);
    }
    forall tok | Holds(q, x, tok) ensures Holds(Enqueued(q, cmd), x, tok) {
      EnqueuingHolds(q, cmd, x, tok);
    }
  }

  lemma BatchingSucceeds(q: Queue, x: Store.Place)
    requires q.batch == []
    ensures Succeeds(q, BatchTaken(q), x)
  {
    hide Holds;
    forall tok | Holds(q, x, tok) ensures Holds(BatchTaken(q), x, tok) {
      BatchingHolds(q, x, tok);
    }
  }

  /** A move other than one that gets an item taken. */
  lemma MoveSucceeds(p: Policy, watched: Subject, rep: Replica, m: Move, x: Store.Place)
    requires CanMove(rep, m) && (m.Owes? ==> !Settling(m.cmd))
    requires !TakesHead(m)
    ensures Succeeds(rep.queue, Moved(p, watched, rep, m).queue, x)
  {
    hide QueueTrue, Holds, Enqueued, OweAll, BatchTaken, HeadSent, NewStops, Histories.Next, Seed;
    match m {
      case Owes(cmd) => EnqueuingSucceeds(rep.queue, cmd, x);
      case Decides(i, e) => OwingSucceeds(OnFallback(p, watched, rep, i, e), NewStops(p, rep.fallbacks[i].ctl, e), x);
      case Steps(step) =>
        match step {
          case Deliver(d) =>
            if d.TakeBatch? {
              BatchingSucceeds(rep.queue, x);
            }
          case Recover(d) => RecoveryQueue(rep, d);
          case Switch(d) => SwitchQueue(rep, d);
        }
    }
  }

  predicate TakesHead(m: Move) {
    m.Steps? && m.step.Deliver? && m.step.delivery.Take?
  }

  lemma RecoveryQueue(rep: Replica, step: RecoveryStep)
    requires CanRecover(rep, step)
    ensures Recovered(rep, step).queue == rep.queue
  {
    hide Seed;
  }

  lemma SwitchQueue(rep: Replica, step: SwitchStep)
    requires CanSwitch(rep, step)
    ensures Switched(rep, step).queue == rep.queue
  {
    hide Seed;
  }

  // The whole.

  /** Tokens of x of the calls the store's answers served, and of those given back. */
  function ServedAt(c: Cluster, x: Store.Place): set<Store.Token> {
    set tok | tok in c.served && tok in c.drawn && AskedAt(c, tok) == x
  }

  function FreedAt(c: Cluster, x: Store.Place): set<Store.Token> {
    set tok | tok in c.freed && tok in c.drawn && AskedAt(c, tok) == x
  }

  /** What an admission was told is what the store holds. */
  ghost predicate AsksTrue(c: Cluster, x: Store.Place) {
    forall tok <- c.asks ::
      && tok in c.drawn
      && (AskedAt(c, tok) == x && c.asks[tok].Said? ==> (c.asks[tok].ok <==> tok in ServedIn(c.store, x)))
  }

  /** Calls being served, and calls that ended, are calls the store served. */
  ghost predicate CallsTrue(c: Cluster, x: Store.Place) {
    forall tok <- c.calls ::
      && tok in c.drawn
      && (AskedAt(c, tok) == x ==>
            tok in ServedIn(c.store, x) && (c.calls[tok].Closing? && c.calls[tok].closing.GivenUp? ==> tok in c.freed))
  }

  ghost predicate QueuesTrue(c: Cluster, x: Store.Place) {
    forall i :: 0 <= i < |c.replicas| ==> QueueTrue(c.replicas[i].queue, ServedIn(c.store, x), c.freed, x)
  }

  ghost predicate HistoryTrue(c: Cluster, x: Store.Place) {
    && c.served <= c.drawn.Keys && c.freed <= c.drawn.Keys && ServedAt(c, x) <= ServedIn(c.store, x)
    && GivenBack(c.store.log, x) <= c.freed
    && (forall tok <- ServedIn(c.store, x) :: tok in c.drawn && AskedAt(c, tok) == x)
  }

  ghost predicate HeldByOne(replicas: seq<Replica>, x: Store.Place, tok: Store.Token) {
    exists i :: 0 <= i < |replicas| && Holds(replicas[i].queue, x, tok)
  }

  /** Every reservation not settled belongs to a call under way or ended, a queue, or an admission unanswered. */
  ghost predicate AllHeld(c: Cluster, x: Store.Place) {
    forall tok <- ServedIn(c.store, x) - SettledIn(c.store, x) ::
      tok in c.asks || tok in c.lost || tok in c.calls || tok in c.errors || HeldByOne(c.replicas, x, tok)
  }

  ghost predicate Exact(c: Cluster, x: Store.Place) {
    AsksTrue(c, x) && CallsTrue(c, x) && QueuesTrue(c, x) && HistoryTrue(c, x) && AllHeld(c, x) && Conserved(c.store, x)
  }

  /** A store that serves, settles and has been told to give back the same tokens of x. */
  predicate SameTokens(s: Store.State, s': Store.State, x: Store.Place) {
    ServedIn(s', x) == ServedIn(s, x) && SettledIn(s', x) == SettledIn(s, x) && GivenBack(s'.log, x) == GivenBack(s.log, x)
  }

  lemma SendKeeps(p: Policy, watched: Subject, x: Store.Place, c: Cluster, tok: Store.Token, ask: Ask)
    requires CanAct(c, Send(tok, ask)) && Exact(c, x)
    ensures Exact(Acted(p, watched, c, Send(tok, ask)), x)
  {
    hide Store.PlaceOf, ServedIn, SettledIn, GivenBack, QueueTrue, Holds, Conserved;
  }

  lemma ArriveKeeps(p: Policy, watched: Subject, x: Store.Place, c: Cluster, tok: Store.Token, today: nat)
    requires Store.IsPlace(x) && CanAct(c, Arrive(tok, today)) && Exact(c, x)
    ensures Exact(Acted(p, watched, c, Arrive(tok, today)), x)
  {
    hide Store.PlaceOf, ServedIn, SettledIn, GivenBack, QueueTrue, Holds, HeldByOne, Conserved, Store.Admit;
    var ask, l, mode := c.drawn[tok], Store.LimitsOf(p), Store.ModeOf(p, c.drawn[tok].bypass);
    ArrivalServes(l, c.store, ask, mode, today, tok, x);
    AdmitConserves(l, c.store, ask.run, ask.key, mode, today, tok, x);
    var served' := ServedIn(Acted(p, watched, c, Arrive(tok, today)).store, x);
    forall i | 0 <= i < |c.replicas| ensures QueueTrue(c.replicas[i].queue, served', c.freed, x) {
      MoreServed(c.replicas[i].queue, ServedIn(c.store, x), served', c.freed, c.freed, x);
    }
  }

  lemma MoreServed(
    q: Queue, served: set<Store.Token>, served': set<Store.Token>, freed: set<Store.Token>, freed': set<Store.Token>,
    x: Store.Place)
    requires QueueTrue(q, served, freed, x) && served <= served' && freed <= freed'
    ensures QueueTrue(q, served', freed', x)
  {
  }

  lemma ServedAtGrows(c: Cluster, c': Cluster, tok: Store.Token, x: Store.Place)
    requires tok in c.drawn && c'.drawn == c.drawn && c'.served == c.served + {tok}
    ensures ServedAt(c', x) <= ServedAt(c, x) + (if AskedAt(c, tok) == x then {tok} else {})
  {
  }

  lemma HearKeeps(p: Policy, watched: Subject, x: Store.Place, c: Cluster, tok: Store.Token)
    requires CanAct(c, Hear(tok)) && Exact(c, x)
    ensures Exact(Acted(p, watched, c, Hear(tok)), x)
  {
    hide Store.PlaceOf, ServedIn, SettledIn, GivenBack, QueueTrue, Holds, HeldByOne, Conserved, ServedAt;
    var c' := Acted(p, watched, c, Hear(tok));
    if c.asks[tok].ok {
      ServedAtGrows(c, c', tok, x);
    } else {
      assert ServedAt(c', x) == ServedAt(c, x) by { SameServed(c, c', x); }
    }
  }

  lemma SameServed(c: Cluster, c': Cluster, x: Store.Place)
    requires c'.drawn == c.drawn && c'.served == c.served
    ensures ServedAt(c', x) == ServedAt(c, x)
  {
  }

  lemma GiveUpKeeps(p: Policy, watched: Subject, x: Store.Place, c: Cluster, tok: Store.Token)
    requires CanAct(c, GiveUp(tok)) && Exact(c, x)
    ensures Exact(Acted(p, watched, c, GiveUp(tok)), x)
  {
    hide Store.PlaceOf, ServedIn, SettledIn, GivenBack, QueueTrue, Holds, HeldByOne, Conserved;
  }

  lemma EndKeeps(p: Policy, watched: Subject, x: Store.Place, c: Cluster, tok: Store.Token, closing: Closing)
    requires CanAct(c, End(tok, closing)) && Exact(c, x)
    ensures Exact(Acted(p, watched, c, End(tok, closing)), x)
  {
    hide Store.PlaceOf, ServedIn, SettledIn, GivenBack, QueueTrue, Holds, HeldByOne, Conserved;
    var served, freed' := ServedIn(c.store, x), Acted(p, watched, c, End(tok, closing)).freed;
    forall i | 0 <= i < |c.replicas| ensures QueueTrue(c.replicas[i].queue, served, freed', x) {
      MoreServed(c.replicas[i].queue, served, served, c.freed, freed', x);
    }
  }

  /** A command that is true of x, or says nothing of it, is carried out in the store and nothing else changes. */
  lemma ExecutionKeeps(l: Store.Limits, x: Store.Place, c: Cluster, cmd: Store.Command, today: nat, id: nat)
    requires Store.IsPlace(x) && Exact(c, x) && ItemTrue(Item(id, cmd), ServedIn(c.store, x), c.freed, x)
    ensures
      var c' := c.(store := Store.Exec(l, c.store, cmd, today));
      Exact(c', x) && ServedIn(c'.store, x) == ServedIn(c.store, x)
      && (SettlesOn(cmd, x) ==> cmd.tok in SettledIn(c'.store, x))
  {
    hide GivenBack, QueueTrue, Holds, HeldByOne, Conserved, Store.Exec, ServedTokens, AsksTrue, CallsTrue, QueuesTrue, AllHeld;
    ExecutionSettles(l, c.store, cmd, today, x);
    ExecConserves(l, c.store, cmd, today, x);
    StoreChanges(c, Store.Exec(l, c.store, cmd, today), x);
  }

  /** A store that has settled more, and been told to give back only what was given back. */
  lemma StoreChanges(c: Cluster, s': Store.State, x: Store.Place)
    requires Exact(c, x) && Conserved(s', x)
    requires ServedIn(s', x) == ServedIn(c.store, x) && SettledIn(c.store, x) <= SettledIn(s', x)
    requires GivenBack(s'.log, x) <= c.freed
    ensures Exact(c.(store := s'), x)
  {
    hide ServedIn, SettledIn, GivenBack, QueueTrue, Holds, HeldByOne, Conserved;
  }

  lemma CommandTrue(c: Cluster, x: Store.Place, tok: Store.Token, id: nat)
    requires CallsTrue(c, x) && tok in c.calls && c.calls[tok].Closing?
    ensures ItemTrue(Item(id, CommandOf(c.drawn[tok], tok, c.calls[tok].closing)), ServedIn(c.store, x), c.freed, x)
  {
  }

  /** A call leaves once it is settled, refused, or was never of x. */
  lemma CallLeaves(c: Cluster, x: Store.Place, tok: Store.Token, errors: set<Store.Token>)
    requires Exact(c, x) && tok in c.calls && c.errors <= errors
    requires tok in SettledIn(c.store, x) || tok in errors || AskedAt(c, tok) != x
    ensures Exact(c.(calls := c.calls - {tok}, errors := errors), x)
  {
    hide ServedIn, SettledIn, GivenBack, QueueTrue, Holds, HeldByOne, Conserved;
  }

  lemma SettleKeeps(p: Policy, watched: Subject, x: Store.Place, c: Cluster, tok: Store.Token, fate: Fate, today: nat)
    requires Store.IsPlace(x) && CanAct(c, Settle(tok, fate, today)) && Exact(c, x)
    ensures Exact(Acted(p, watched, c, Settle(tok, fate, today)), x)
  {
    var cmd := CommandOf(c.drawn[tok], tok, c.calls[tok].closing);
    assert ItemTrue(Item(0, cmd), ServedIn(c.store, x), c.freed, x) by { CommandTrue(c, x, tok, 0); }
    hide Exact, ServedIn, SettledIn, Store.Exec, ItemTrue;
    var c1 := if Executed(fate) then c.(store := Store.Exec(Store.LimitsOf(p), c.store, cmd, today)) else c;
    ExecutionKeeps(Store.LimitsOf(p), x, c, cmd, today, 0);
    if !fate.Lost? {
      CallLeaves(c1, x, tok, if fate.Refusal? then c.errors + {tok} else c.errors);
    }
  }

  lemma OrderedKeeps(p: Policy, watched: Subject, x: Store.Place, c: Cluster, cmd: Store.Command, today: nat)
    requires Store.IsPlace(x) && CanAct(c, Ordered(cmd, today)) && Exact(c, x)
    ensures Exact(Acted(p, watched, c, Ordered(cmd, today)), x)
  {
    hide Exact, Store.Exec, ServedIn, SettledIn;
    ExecutionKeeps(Store.LimitsOf(p), x, c, cmd, today, 0);
  }

  lemma OwedQueue(q: Queue, cmd: Store.Command, served: set<Store.Token>, freed: set<Store.Token>, x: Store.Place)
    requires QueueTrue(q, served, freed, x) && ItemTrue(Item(|q.all|, cmd), served, freed, x)
    ensures QueueTrue(Enqueued(q, cmd), served, freed, x)
    ensures forall tok :: Holds(q, x, tok) ==> Holds(Enqueued(q, cmd), x, tok)
    ensures SettlesOn(cmd, x) ==> Holds(Enqueued(q, cmd), x, cmd.tok)
  {
    hide Enqueued, QueueTrue, Holds;
    EnqueuingKeeps(q, cmd, served, freed, x);
    forall tok ensures Holds(q, x, tok) ==> Holds(Enqueued(q, cmd), x, tok) {
      EnqueuingHolds(q, cmd, x, tok);
    }
    if SettlesOn(cmd, x) {
      EnqueuingHolds(q, cmd, x, cmd.tok);
    }
  }

  lemma OweItKeeps(p: Policy, watched: Subject, x: Store.Place, c: Cluster, tok: Store.Token)
    requires CanAct(c, OweIt(tok)) && Exact(c, x)
    ensures Exact(Acted(p, watched, c, OweIt(tok)), x)
  {
    hide Store.PlaceOf, ServedIn, SettledIn, GivenBack, QueueTrue, Holds, HeldByOne, Conserved, Enqueued;
    var i, cmd := c.drawn[tok].replica, CommandOf(c.drawn[tok], tok, c.calls[tok].closing);
    CommandTrue(c, x, tok, |c.replicas[i].queue.all|);
    OwedQueue(c.replicas[i].queue, cmd, ServedIn(c.store, x), c.freed, x);
    QueueChanges(c.replicas, i, Owe(c.replicas[i], cmd), x);
    assert AskedAt(c, tok) == x ==> HeldByOne(c.replicas[i := Owe(c.replicas[i], cmd)], x, tok);
  }

  /** Nothing is let go when a replica's queue holds what it held. */
  lemma QueueChanges(replicas: seq<Replica>, i: nat, rep: Replica, x: Store.Place)
    requires i < |replicas|
    requires forall tok :: Holds(replicas[i].queue, x, tok) ==> Holds(rep.queue, x, tok)
    ensures forall tok :: HeldByOne(replicas, x, tok) ==> HeldByOne(replicas[i := rep], x, tok)
    ensures forall tok :: Holds(rep.queue, x, tok) ==> HeldByOne(replicas[i := rep], x, tok)
  {
    hide Holds;
    var replicas' := replicas[i := rep];
    assert replicas'[i] == rep;
    forall tok | HeldByOne(replicas, x, tok) ensures HeldByOne(replicas', x, tok) {
      var j :| 0 <= j < |replicas| && Holds(replicas[j].queue, x, tok);
      assert Holds(replicas'[j].queue, x, tok);
    }
  }

  lemma ReplicaChanges(c: Cluster, i: nat, rep: Replica, x: Store.Place)
    requires Exact(c, x) && i < |c.replicas| && Succeeds(c.replicas[i].queue, rep.queue, x)
    ensures Exact(c.(replicas := c.replicas[i := rep]), x)
  {
    hide ServedIn, SettledIn, GivenBack, QueueTrue, Holds, HeldByOne, Conserved;
    QueueChanges(c.replicas, i, rep, x);
  }

  /** A replica's move other than a taking: the store's tokens stay as they are. */
  lemma QuietMoveKeeps(p: Policy, watched: Subject, x: Store.Place, c: Cluster, i: nat, m: Move, today: nat)
    requires Store.IsPlace(x) && CanAct(c, OnReplica(i, m, today)) && !TakesHead(m) && Exact(c, x)
    ensures Exact(Acted(p, watched, c, OnReplica(i, m, today)), x)
  {
    hide ServedIn, SettledIn, GivenBack, AsksTrue, CallsTrue, QueuesTrue, AllHeld, Succeeds, Conserved;
    hide Moved, StoreAfter, CanMove;
    MoveSucceeds(p, watched, c.replicas[i], m, x);
    QuietStore(p, c.store, c.replicas[i], m, today, x);
    var s' := StoreAfter(p, c.store, c.replicas[i], m, today);
    StoreChanges(c, s', x);
    ReplicaChanges(c.(store := s'), i, Moved(p, watched, c.replicas[i], m), x);
  }

  lemma QuietStore(p: Policy, s: Store.State, rep: Replica, m: Move, today: nat, x: Store.Place)
    requires CanMove(rep, m) && !TakesHead(m)
    ensures var s' := StoreAfter(p, s, rep, m, today); SameTokens(s, s', x) && (Conserved(s, x) ==> Conserved(s', x))
  {
    hide GivenBack, ServedTokens, OpenTokens, Count, Sum, CanDeliver, CanRecover, CanSwitch;
  }

  /** A taking: the head of the batch is carried out, refused or put back. */
  lemma TakeKeeps(p: Policy, watched: Subject, x: Store.Place, c: Cluster, i: nat, fate: Fate, today: nat)
    requires Store.IsPlace(x) && CanAct(c, OnReplica(i, Steps(Deliver(Take(fate))), today)) && Exact(c, x)
    ensures Exact(Acted(p, watched, c, OnReplica(i, Steps(Deliver(Take(fate))), today)), x)
  {
    var rep, l := c.replicas[i], Store.LimitsOf(p);
    var q := rep.queue;
    var cmd := q.batch[0].cmd;
    SendingKeeps(q, fate, ServedIn(c.store, x), c.freed, x);
    var c1 := if Executed(fate) then c.(store := Store.Exec(l, c.store, cmd, today)) else c;
    if Executed(fate) {
      ExecutionKeeps(l, x, c, cmd, today, q.batch[0].id);
    }
    var rep' := Delivered(rep, Take(fate));
    assert rep'.queue == HeadSent(q, fate);
    forall tok | Holds(q, x, tok) && !(fate.Done? && SettlesOn(cmd, x) && cmd.tok == tok)
      ensures Holds(rep'.queue, x, tok)
    {
      SendingHolds(q, fate, x, tok);
    }
    hide ServedIn, SettledIn, GivenBack, QueueTrue, Holds, Conserved, Store.Exec, HeadSent, Delivered, CanDeliver;
    TakenHeld(c1, x, i, rep', fate, cmd);
  }

  /** Of what a replica held, only a token just settled may be let go. */
  lemma TakenHeld(c: Cluster, x: Store.Place, i: nat, rep: Replica, fate: Fate, cmd: Store.Command)
    requires Exact(c, x) && i < |c.replicas|
    requires QueueTrue(rep.queue, ServedIn(c.store, x), c.freed, x)
    requires forall tok :: Holds(c.replicas[i].queue, x, tok) && !(fate.Done? && SettlesOn(cmd, x) && cmd.tok == tok)
                       ==> Holds(rep.queue, x, tok)
    requires fate.Done? && SettlesOn(cmd, x) ==> cmd.tok in SettledIn(c.store, x)
    ensures Exact(c.(replicas := c.replicas[i := rep]), x)
  {
    hide ServedIn, SettledIn, GivenBack, QueueTrue, Holds, Conserved;
    var replicas' := c.replicas[i := rep];
    assert replicas'[i] == rep;
    forall tok | tok in ServedIn(c.store, x) - SettledIn(c.store, x) && HeldByOne(c.replicas, x, tok)
      ensures HeldByOne(replicas', x, tok)
    {
      var j :| 0 <= j < |c.replicas| && Holds(c.replicas[j].queue, x, tok);
      assert Holds(replicas'[j].queue, x, tok);
    }
  }

  lemma ActKeeps(p: Policy, watched: Subject, x: Store.Place, c: Cluster, a: Act)
    requires Store.IsPlace(x) && CanAct(c, a) && Exact(c, x)
    ensures Exact(Acted(p, watched, c, a), x)
  {
    hide CanAct, Acted, Exact;
    match a {
      case Send(tok, ask) => SendKeeps(p, watched, x, c, tok, ask);
      case Arrive(tok, today) => ArriveKeeps(p, watched, x, c, tok, today);
      case Hear(tok) => HearKeeps(p, watched, x, c, tok);
      case GiveUp(tok) => GiveUpKeeps(p, watched, x, c, tok);
      case End(tok, closing) => EndKeeps(p, watched, x, c, tok, closing);
      case Settle(tok, fate, today) => SettleKeeps(p, watched, x, c, tok, fate, today);
      case OweIt(tok) => OweItKeeps(p, watched, x, c, tok);
      case OnReplica(i, m, today) =>
        if TakesHead(m) {
          TakeKeeps(p, watched, x, c, i, m.step.delivery.fate, today);
        } else {
          QuietMoveKeeps(p, watched, x, c, i, m, today);
        }
      case Ordered(cmd, today) => OrderedKeeps(p, watched, x, c, cmd, today);
    }
  }

  lemma {:induction false} PlayKeeps(p: Policy, watched: Subject, x: Store.Place, c: Cluster, acts: seq<Act>)
    requires Store.IsPlace(x) && CanUnfold(p, watched, c, acts) && Exact(c, x)
    ensures Exact(Unfolded(p, watched, c, acts), x)
    decreases |acts|
  {
    hide Acted, CanAct, Exact;
    if acts != [] {
      ActKeeps(p, watched, x, c, acts[0]);
      PlayKeeps(p, watched, x, Acted(p, watched, c, acts[0]), acts[1..]);
    }
  }

  lemma BeginExact(c: Cluster, x: Store.Place)
    requires Begins(c)
    ensures Exact(c, x)
  {
    hide Seed;
  }

  /**
    Settlement is exactly once: in every state the replicas and their store can reach, through
    lost answers, repeats, gaps and recoveries, each token of a run, and of a key's calls that
    have no run, was admitted once and settled at most once, by a record or a giving back, and only if it
    was served. Every open token is held: by an admission unanswered or given up, by a call under
    way or ended, by a settlement queued, dropped or answered with an error. And until a run is first
    resumed, its calls in flight, its calls and its dollars in the store are those of its open
    tokens, its recorded tokens and their costs.
   */
  lemma {:induction false} ExactlyOnce(
    p: Policy, watched: Subject, x: Store.Place, start: Cluster, acts: seq<Act>, c: Cluster)
    requires Store.IsPlace(x) && Begins(start) && CanUnfold(p, watched, start, acts)
    requires c == Unfolded(p, watched, start, acts)
    ensures
      var t, log := Store.TokensIn(c.store, x), c.store.log;
      && |ServedTokens(t)| == Count(log, Admission, x)
      && t.settled <= ServedTokens(t) && |t.settled| == Count(log, Recording, x) + Count(log, Giveback, x)
    ensures forall tok <- OpenTokens(Store.TokensIn(c.store, x)) ::
              tok in c.asks || tok in c.lost || tok in c.calls || tok in c.errors || HeldByOne(c.replicas, x, tok)
    ensures x.InRun? && Count(c.store.log, Wipe, x) == 0 ==>
              var h, log := Store.HashOf(c.store, x.run), c.store.log;
              && h.inflight == |OpenTokens(Store.TokensIn(c.store, x))|
              && h.calls == Count(log, Recording, x) && h.spend == Sum(log, x)
  {
    hide CanUnfold, Unfolded, Begins, Count, Sum, HeldByOne, GivenBack;
    BeginExact(start, x);
    PlayKeeps(p, watched, x, start, acts);
  }
}

/**
  The kill switch across a gateway and its store. An operator's write, a flush's and a
  recovery's race each other; each remembers the generation of the value it writes, and only
  the write of the latest one may mark the switch clean.
 */
module KillSwitch {
  import opened Control
  import opened Histories
  import opened Replica

  /** A replica and the kill switch as the store holds it. */
  datatype System = System(r: Replica, stored: bool)

  /** What a move makes of the store's kill switch: a write of it that is carried out, and nothing else. */
  function StoredAfter(s: System, m: Move): bool
    requires CanMove(s.r, m)
  {
    match m
    case Steps(Deliver(WriteKill(fate))) => if Executed(fate) then s.r.stage.on else s.stored
    case Steps(Switch(SetterWrites(i, fate))) => if Executed(fate) then s.r.kill.setters[i].on else s.stored
    case _ => s.stored
  }

  function Next(p: Policy, watched: Subject, s: System, m: Move): System
    requires CanMove(s.r, m)
  {
    System(Moved(p, watched, s.r, m), StoredAfter(s, m))
  }

  /**
    An operator's call begins only once the last has returned, and the store refuses no delivery's
    write of the switch. It may refuse an operator's own: the switch then stays dirty.
   */
  predicate Serial(r: Replica, m: Move) {
    match m
    case Steps(Deliver(WriteKill(fate))) => !fate.Refusal?
    case Steps(Switch(SetKill(_))) => r.kill.setters == []
    case _ => true
  }

  ghost predicate CanPlay(p: Policy, watched: Subject, s: System, ms: seq<Move>)
    decreases |ms|
  {
    ms == [] || (CanMove(s.r, ms[0]) && CanPlay(p, watched, Next(p, watched, s, ms[0]), ms[1..]))
  }

  ghost predicate AllSerial(p: Policy, watched: Subject, s: System, ms: seq<Move>)
    requires CanPlay(p, watched, s, ms)
    decreases |ms|
  {
    ms == [] || (Serial(s.r, ms[0]) && AllSerial(p, watched, Next(p, watched, s, ms[0]), ms[1..]))
  }

  function Play(p: Policy, watched: Subject, s: System, ms: seq<Move>): System
    requires CanPlay(p, watched, s, ms)
    decreases |ms|
  {
    if ms == [] then s else Play(p, watched, Next(p, watched, s, ms[0]), ms[1..])
  }

  // What holds here, whatever calls overlap and whatever the store answers.

  /** The fallback requests go to holds the switch as the replica does. */
  predicate SameSwitch(r: Replica) {
    r.fallbacks != [] && r.fallbacks[|r.fallbacks| - 1].ctl.killed == r.kill.on
  }

  /** While the switch is dirty the operator's last value is held here, and by the fallback always what is here. */
  predicate HeldHere(r: Replica) {
    (r.kill.dirty ==> r.kill.gen > 0 && r.kill.on == r.kill.lastSet) && SameSwitch(r)
  }

  lemma DeliveryHolds(r: Replica, step: DeliveryStep)
    requires CanDeliver(r, step) && HeldHere(r)
    ensures HeldHere(Delivered(r, step))
  {
    hide HeadSent, BatchTaken;
  }

  lemma RecoveryHolds(r: Replica, step: RecoveryStep)
    requires CanRecover(r, step) && HeldHere(r)
    ensures HeldHere(Recovered(r, step))
  {
  }

  lemma SwitchHolds(r: Replica, step: SwitchStep)
    requires CanSwitch(r, step) && HeldHere(r)
    ensures HeldHere(Switched(r, step))
  {
  }

  lemma MoveHolds(p: Policy, watched: Subject, r: Replica, m: Move)
    requires CanMove(r, m) && HeldHere(r)
    ensures HeldHere(Moved(p, watched, r, m))
  {
    hide CanDeliver, CanRecover, CanSwitch, Delivered, Recovered, Switched, Enqueued, OweAll, NewStops, Histories.Next;
    match m {
      case Owes(_) =>
      case Decides(i, e) =>
        var f := r.fallbacks[i];
        DecidingKeepsSwitch(p, watched, World(f.ctl, f.ledger), e);
        OwingKeeps(OnFallback(p, watched, r, i, e), NewStops(p, f.ctl, e));
      case Steps(step) =>
        match step {
          case Deliver(d) => DeliveryHolds(r, d);
          case Recover(d) => RecoveryHolds(r, d);
          case Switch(d) => SwitchHolds(r, d);
        }
    }
  }

  /**
    In every run of a replica, with operators' calls overlapping and deliveries refused or not:
    while the switch is dirty the replica holds the operator's last value, and the fallback
    always holds what the replica holds.
   */
  lemma {:induction false} AlwaysHeldHere(p: Policy, watched: Subject, s: System, ms: seq<Move>)
    requires HeldHere(s.r) && CanPlay(p, watched, s, ms)
    ensures HeldHere(Play(p, watched, s, ms).r)
    decreases |ms|
  {
    hide CanMove, HeldHere, Moved;
    if ms != [] {
      MoveHolds(p, watched, s.r, ms[0]);
      AlwaysHeldHere(p, watched, Next(p, watched, s, ms[0]), ms[1..]);
    }
  }

  // The generation invariant.

  /** The operator's last value is here while the switch is dirty, and in the store once it is clean. */
  predicate Settled(s: System) {
    var k := s.r.kill;
    && (k.dirty ==> k.gen > 0 && k.on == k.lastSet)
    && (!k.dirty && k.gen > 0 ==> s.stored == k.lastSet)
  }

  /** At most one operator's call is under way, about the latest value; once it has written, the store holds that. */
  predicate OneSetter(s: System) {
    var k := s.r.kill;
    && |k.setters| <= 1
    && (|k.setters| == 1 ==>
          var setter := k.setters[0];
          setter.gen == k.gen && (if setter.ToWrite? then setter.on == k.lastSet else s.stored == k.lastSet))
  }

  /**
    A delivery's write is of the latest value, and once made the store holds it; or it is of an
    older value, and then the switch is dirty and no operator's write has come in between.
   */
  predicate WriterKnown(s: System) {
    var k, stage := s.r.kill, s.r.stage;
    !s.r.holder.Nobody? && !stage.Draining? ==>
      && (stage.gen == k.gen ==> if stage.WritingKill? then stage.on == k.lastSet else s.stored == k.lastSet)
      && (stage.gen != k.gen ==> stage.gen < k.gen && k.dirty && (k.setters == [] || k.setters[0].ToWrite?))
  }

  predicate Kept(s: System) {
    Settled(s) && OneSetter(s) && WriterKnown(s)
  }

  lemma DeliveryKeeps(s: System, step: DeliveryStep)
    requires CanDeliver(s.r, step) && Serial(s.r, Steps(Deliver(step))) && Kept(s)
    ensures Kept(System(Delivered(s.r, step), StoredAfter(s, Steps(Deliver(step)))))
  {
    hide HeadSent, BatchTaken;
  }

  lemma RecoveryKeeps(s: System, step: RecoveryStep)
    requires CanRecover(s.r, step) && Kept(s)
    ensures Kept(System(Recovered(s.r, step), s.stored))
  {
  }

  lemma SettingKeeps(s: System, on: bool)
    requires CanSwitch(s.r, SetKill(on)) && s.r.kill.setters == [] && Kept(s)
    ensures Kept(System(Switched(s.r, SetKill(on)), s.stored))
  {
  }

  /** An operator's write of the latest value, carried out or not, and the mark that follows it. */
  lemma SetterKeeps(s: System, i: nat, fate: Fate)
    requires Kept(s)
    ensures CanSwitch(s.r, SetterWrites(i, fate)) ==>
              Kept(System(Switched(s.r, SetterWrites(i, fate)), StoredAfter(s, Steps(Switch(SetterWrites(i, fate))))))
    ensures CanSwitch(s.r, SetterClears(i)) ==> Kept(System(Switched(s.r, SetterClears(i)), s.stored))
  {
  }

  lemma FollowingKeeps(s: System, step: SwitchStep)
    requires CanSwitch(s.r, step) && (step.Degrade? || step.Mirror?) && Kept(s)
    ensures Kept(System(Switched(s.r, step), s.stored))
  {
  }

  lemma SwitchKeeps(s: System, step: SwitchStep)
    requires CanSwitch(s.r, step) && Serial(s.r, Steps(Switch(step))) && Kept(s)
    ensures Kept(System(Switched(s.r, step), StoredAfter(s, Steps(Switch(step)))))
  {
    hide Kept, CanSwitch, Switched;
    match step {
      case SetKill(on) => SettingKeeps(s, on);
      case SetterWrites(i, fate) => SetterKeeps(s, i, fate);
      case SetterClears(i) => SetterKeeps(s, i, Done);
      case _ => FollowingKeeps(s, step);
    }
  }

  /** Only the switch itself changes a controller's kill flag. */
  lemma DecidingKeepsSwitch(p: Policy, watched: Subject, w: World, e: Event)
    requires !e.op.SetKilled?
    ensures Histories.Next(p, watched, w, e).ctl.killed == w.ctl.killed
  {
    hide StandingOf, Judge, Why, RecordKey, RecordRun, Tally, ReleaseCall, KeyAt;
    ReleasingKeepsSwitch(w.ctl, e.op);
    AdmittingKeepsSwitch(p, w.ctl, e.op, e.now);
  }

  lemma ReleasingKeepsSwitch(c: Ctl, op: Op)
    ensures op.Release? ==> ReleaseCall(c, op.run, op.key).killed == c.killed
  {
  }

  lemma AdmittingKeepsSwitch(p: Policy, c: Ctl, op: Op, now: nat)
    ensures op.Admit? ==> AdmitCall(p, c, op.run, op.key, op.bypass, now).ctl.killed == c.killed
  {
    hide StandingOf, Judge, Why, Touch, Reserve;
  }

  lemma {:induction false} OwingKeeps(r: Replica, evs: seq<StopEvent>)
    ensures var r' := OweAll(r, evs); r' == r.(queue := r'.queue)
    decreases |evs|
  {
    hide Enqueued;
    if evs != [] {
      OwingKeeps(Owe(r, PauseOf(evs[0])), evs[1..]);
    }
  }

  lemma MoveKeeps(p: Policy, watched: Subject, s: System, m: Move)
    requires CanMove(s.r, m) && Serial(s.r, m) && Kept(s)
    ensures Kept(Next(p, watched, s, m))
  {
    hide CanDeliver, CanRecover, CanSwitch, Delivered, Recovered, Switched, Enqueued, OweAll, NewStops, Histories.Next;
    match m {
      case Owes(_) =>
      case Decides(i, e) =>
        OwingKeeps(OnFallback(p, watched, s.r, i, e), NewStops(p, s.r.fallbacks[i].ctl, e));
      case Steps(step) =>
        match step {
          case Deliver(d) => DeliveryKeeps(s, d);
          case Recover(d) => RecoveryKeeps(s, d);
          case Switch(d) => SwitchKeeps(s, d);
        }
    }
  }

  lemma {:induction false} PlayKeeps(p: Policy, watched: Subject, s: System, ms: seq<Move>)
    requires CanPlay(p, watched, s, ms) && AllSerial(p, watched, s, ms) && Kept(s)
    ensures Kept(Play(p, watched, s, ms))
    decreases |ms|
  {
    hide CanMove, Serial, Next, Kept;
    if ms != [] {
      MoveKeeps(p, watched, s, ms[0]);
      PlayKeeps(p, watched, Next(p, watched, s, ms[0]), ms[1..]);
    }
  }

  /**
    Whatever deliveries, gaps, recoveries and lost answers come between, and whatever the
    replica reads back of the store's switch: a clean switch means that the store holds the
    operator's last value; and always, so does the replica while the switch is dirty, and the
    fallback holds what the replica holds.
   */
  lemma {:induction false} LastSetWins(p: Policy, watched: Subject, s: System, ms: seq<Move>, end: System)
    requires Starts(s.r) && CanPlay(p, watched, s, ms) && end == Play(p, watched, s, ms)
    ensures end.r.kill.dirty ==> end.r.kill.on == end.r.kill.lastSet
    ensures SameSwitch(end.r)
    ensures AllSerial(p, watched, s, ms) && !end.r.kill.dirty && end.r.kill.gen > 0 ==> end.stored == end.r.kill.lastSet
  {
    hide Next, CanMove, Serial, AllSerial, CanPlay, Play;
    AlwaysHeldHere(p, watched, s, ms);
    if AllSerial(p, watched, s, ms) {
      PlayKeeps(p, watched, s, ms);
    }
  }

  // What an admission meets.

  /** Where a call is decided: here, by the fallback or by the operator's own switch, or by the store. */
  datatype Route = ByFallback(reply: Reply) | RefusedHere | ByStore

  function RouteOf(p: Policy, r: Replica, run: string, key: string, bypass: bool, now: nat): Route
    requires r.fallbacks != []
  {
    if r.degraded then
      ByFallback(Core(p, r.fallbacks[|r.fallbacks| - 1].ctl, Op.Admit(run, key, bypass), now).reply)
    else if r.kill.dirty && r.kill.on then RefusedHere
    else ByStore
  }

  /**
    While an operator's kill has not been taken by the store, this replica serves nobody, in a
    gap or out of it, a bypass included; whatever calls overlap and whatever the store refuses.
   */
  lemma {:induction false} DirtyKillHolds(
    p: Policy, watched: Subject, s: System, ms: seq<Move>, end: System, run: string, key: string, bypass: bool, now: nat)
    requires Starts(s.r) && CanPlay(p, watched, s, ms) && end == Play(p, watched, s, ms)
    requires end.r.kill.dirty && end.r.kill.lastSet
    ensures
      end.r.fallbacks != [] &&
      RouteOf(p, end.r, run, key, bypass, now) in {RefusedHere, ByFallback(Reply(false, Reason.KillSwitch))}
  {
    hide Next, CanMove, CanPlay, Play, Decide;
    AlwaysHeldHere(p, watched, s, ms);
  }

  // When the switch comes to read clean over another value, with nothing assumed of the calls.

  /** The switch has been set and reads clean. */
  predicate ReadsClean(k: Kill) {
    !k.dirty && k.gen > 0
  }

  /**
    A write of another value than the operator's last is carried out under a switch that reads
    clean; or the write of the latest generation is marked while the store holds another value.
   */
  predicate Breaks(s: System, m: Move)
    requires CanMove(s.r, m)
  {
    var k := s.r.kill;
    match m
    case Steps(Deliver(WriteKill(fate))) => Executed(fate) && ReadsClean(k) && s.r.stage.on != k.lastSet
    case Steps(Deliver(ClearKill)) => k.gen > 0 && s.r.stage.gen == k.gen && s.stored != k.lastSet
    case Steps(Switch(SetterWrites(i, fate))) => Executed(fate) && ReadsClean(k) && k.setters[i].on != k.lastSet
    case Steps(Switch(SetterClears(i))) => k.gen > 0 && k.setters[i].gen == k.gen && s.stored != k.lastSet
    case _ => false
  }

  lemma DeliveryBreaksExactly(s: System, step: DeliveryStep)
    requires CanDeliver(s.r, step) && Settled(s)
    ensures Settled(System(Delivered(s.r, step), StoredAfter(s, Steps(Deliver(step))))) <==> !Breaks(s, Steps(Deliver(step)))
  {
    hide HeadSent, BatchTaken;
  }

  lemma SwitchBreaksExactly(s: System, step: SwitchStep)
    requires CanSwitch(s.r, step) && Settled(s)
    ensures Settled(System(Switched(s.r, step), StoredAfter(s, Steps(Switch(step))))) <==> !Breaks(s, Steps(Switch(step)))
  {
    hide Seed;
  }

  lemma RecoveryBreaksNothing(s: System, step: RecoveryStep)
    requires CanRecover(s.r, step) && Settled(s)
    ensures Settled(System(Recovered(s.r, step), s.stored))
  {
  }

  /**
    Whatever calls overlap and whatever the store refuses: from a state where the operator's last
    value is here while the switch is dirty, and in the store once it is clean, a step leads out
    of it exactly when it is one of those.
   */
  lemma SettledBreaksExactly(p: Policy, watched: Subject, s: System, m: Move)
    requires CanMove(s.r, m) && Settled(s)
    ensures Settled(Next(p, watched, s, m)) <==> !Breaks(s, m)
  {
    hide CanDeliver, CanRecover, CanSwitch, Delivered, Recovered, Switched, Enqueued, OweAll, NewStops, Histories.Next;
    match m {
      case Owes(_) =>
      case Decides(i, e) =>
        OwingKeeps(OnFallback(p, watched, s.r, i, e), NewStops(p, s.r.fallbacks[i].ctl, e));
      case Steps(step) =>
        match step {
          case Deliver(d) => DeliveryBreaksExactly(s, d);
          case Recover(d) => RecoveryBreaksNothing(s, d);
          case Switch(d) => SwitchBreaksExactly(s, d);
        }
    }
  }

  /**
    The delivery's own write, answered, and its mark: from where the calls have left it in order, it breaks
    the switch exactly when the store refused the latest value and holds the other.
   */
  lemma RefusedDeliveryBreaksExactly(s: System, fate: Fate)
    requires CanDeliver(s.r, WriteKill(fate)) && !fate.Lost? && Kept(s) && s.r.kill.gen > 0
    ensures CanDeliver(Delivered(s.r, WriteKill(fate)), ClearKill)
    ensures
      var s1 := System(Delivered(s.r, WriteKill(fate)), StoredAfter(s, Steps(Deliver(WriteKill(fate)))));
      Settled(System(Delivered(s1.r, ClearKill), s1.stored))
      <==> !(fate.Refusal? && s.r.stage.gen == s.r.kill.gen && s.stored != s.r.kill.lastSet)
  {
    hide HeadSent, BatchTaken;
  }

  // The replica's own copy once the switch is clean: it follows what it reads of the store, and a
  // reading may be out of date by the time it is taken up.

  /** A switch that has been set and reads clean is here as it is in the store. */
  predicate InStep(s: System) {
    ReadsClean(s.r.kill) ==> s.r.kill.on == s.stored
  }

  /**
    A clean switch is written with another value than is held here; the write of the latest
    generation is marked when the store holds another; or a reading that is no longer true is
    taken up, from an admission's answer or at the end of a gap.
   */
  ghost predicate Parts(s: System, m: Move)
    requires CanMove(s.r, m)
  {
    var k := s.r.kill;
    match m
    case Steps(Deliver(WriteKill(fate))) => Executed(fate) && ReadsClean(k) && s.r.stage.on != k.on
    case Steps(Deliver(ClearKill)) => k.gen > 0 && s.r.stage.gen == k.gen && s.stored != k.on
    case Steps(Recover(Swap(_))) => ReadsClean(k) && s.r.recovery.read != s.stored
    case Steps(Switch(SetterWrites(i, fate))) => Executed(fate) && ReadsClean(k) && k.setters[i].on != k.on
    case Steps(Switch(SetterClears(i))) => k.gen > 0 && k.setters[i].gen == k.gen && s.stored != k.on
    case Steps(Switch(Mirror(on))) => ReadsClean(k) && on != s.stored
    case _ => false
  }

  lemma DeliveryPartsExactly(s: System, step: DeliveryStep)
    requires CanDeliver(s.r, step) && InStep(s)
    ensures InStep(System(Delivered(s.r, step), StoredAfter(s, Steps(Deliver(step))))) <==> !Parts(s, Steps(Deliver(step)))
  {
    hide HeadSent, BatchTaken;
  }

  lemma RecoveryPartsExactly(s: System, step: RecoveryStep)
    requires CanRecover(s.r, step) && InStep(s)
    ensures InStep(System(Recovered(s.r, step), s.stored)) <==> !Parts(s, Steps(Recover(step)))
  {
  }

  lemma SwitchPartsExactly(s: System, step: SwitchStep)
    requires CanSwitch(s.r, step) && InStep(s)
    ensures InStep(System(Switched(s.r, step), StoredAfter(s, Steps(Switch(step))))) <==> !Parts(s, Steps(Switch(step)))
  {
    hide Seed;
  }

  /** Nothing assumed of the calls: a clean switch comes to differ from the store's exactly at one of those steps. */
  lemma InStepPartsExactly(p: Policy, watched: Subject, s: System, m: Move)
    requires CanMove(s.r, m) && InStep(s)
    ensures InStep(Next(p, watched, s, m)) <==> !Parts(s, m)
  {
    hide CanDeliver, CanRecover, CanSwitch, Delivered, Recovered, Switched, Enqueued, OweAll, NewStops, Histories.Next;
    match m {
      case Owes(_) =>
      case Decides(i, e) =>
        OwingKeeps(OnFallback(p, watched, s.r, i, e), NewStops(p, s.r.fallbacks[i].ctl, e));
      case Steps(step) =>
        match step {
          case Deliver(d) => DeliveryPartsExactly(s, d);
          case Recover(d) => RecoveryPartsExactly(s, d);
          case Switch(d) => SwitchPartsExactly(s, d);
        }
    }
  }

  /** What is read of the store's switch is still true when a clean switch takes it up. */
  predicate Fresh(s: System, m: Move) {
    match m
    case Steps(Recover(Swap(_))) => ReadsClean(s.r.kill) ==> s.r.recovery.Swapping? && s.r.recovery.read == s.stored
    case Steps(Switch(Mirror(on))) => ReadsClean(s.r.kill) ==> on == s.stored
    case _ => true
  }

  /** With calls in order, only a stale reading parts the replica from the store. */
  lemma OrderlyPartsOnStale(s: System, m: Move)
    requires CanMove(s.r, m) && Serial(s.r, m) && Kept(s) && HeldHere(s.r) && InStep(s)
    ensures Parts(s, m) <==> !Fresh(s, m)
  {
    hide Seed;
  }

  ghost predicate AllFresh(p: Policy, watched: Subject, s: System, ms: seq<Move>)
    requires CanPlay(p, watched, s, ms)
    decreases |ms|
  {
    ms == [] || (Fresh(s, ms[0]) && AllFresh(p, watched, Next(p, watched, s, ms[0]), ms[1..]))
  }

  lemma {:induction false} PlayInStep(p: Policy, watched: Subject, s: System, ms: seq<Move>)
    requires CanPlay(p, watched, s, ms) && AllSerial(p, watched, s, ms) && AllFresh(p, watched, s, ms)
    requires Kept(s) && HeldHere(s.r) && InStep(s)
    ensures InStep(Play(p, watched, s, ms))
    decreases |ms|
  {
    hide CanMove, Serial, Fresh, Moved, StoredAfter, Parts, Kept, HeldHere, InStep;
    if ms != [] {
      MoveKeeps(p, watched, s, ms[0]);
      MoveHolds(p, watched, s.r, ms[0]);
      OrderlyPartsOnStale(s, ms[0]);
      InStepPartsExactly(p, watched, s, ms[0]);
      PlayInStep(p, watched, Next(p, watched, s, ms[0]), ms[1..]);
    }
  }

  /**
    Once its calls are in order and its readings fresh, a replica whose switch reads clean holds the
    operator's last value, and so do its fallback and the store.
   */
  lemma {:induction false} CleanMeansEverywhere(p: Policy, watched: Subject, s: System, ms: seq<Move>, end: System)
    requires Starts(s.r) && CanPlay(p, watched, s, ms) && end == Play(p, watched, s, ms)
    requires AllSerial(p, watched, s, ms) && AllFresh(p, watched, s, ms)
    requires ReadsClean(end.r.kill)
    ensures end.r.kill.lastSet == end.r.kill.on == end.stored && SameSwitch(end.r)
  {
    hide Next, CanMove, Serial, Fresh, AllSerial, AllFresh, CanPlay, Play;
    PlayInStep(p, watched, s, ms);
    LastSetWins(p, watched, s, ms, end);
  }

  /** An answer from before the kill was written is taken up after it was marked. */
  const STALE_ANSWER := [
    Steps(Switch(SetKill(true))), Steps(Switch(SetterWrites(0, Done))), Steps(Switch(SetterClears(0))),
    Steps(Switch(Mirror(false)))]

  /**
    One call in order, nothing refused or lost: the replica takes the old value up, and should a
    gap begin, it serves a call that the operator's kill, taken by the store, forbids.
   */
  lemma StaleAnswerLetsThrough(p: Policy, watched: Subject, r: Replica, now: nat)
    requires Starts(r)
    ensures CanPlay(p, watched, System(r, false), STALE_ANSWER)
    ensures AllSerial(p, watched, System(r, false), STALE_ANSWER)
    ensures
      var end := Play(p, watched, System(r, false), STALE_ANSWER);
      && !end.r.kill.dirty && end.r.kill.lastSet && end.stored && !end.r.kill.on
      && CanSwitch(end.r, Degrade(EMPTY)) && !Switched(end.r, Degrade(EMPTY)).kill.dirty
      && RouteOf(p, Switched(end.r, Degrade(EMPTY)), "", "", false, now) == ByFallback(Reply(true, NoReason))
  {
  }

  // Why the calls must not overlap, nor the store refuse one.

  /** Two calls overlap, and the later one's value is written first. */
  const OVERLAP := [
    Steps(Switch(SetKill(true))), Steps(Switch(SetKill(false))), Steps(Switch(SetterWrites(1, Done))),
    Steps(Switch(SetterWrites(0, Done))), Steps(Switch(SetterClears(1)))]

  /** The store answers a kill with an error, to the operator's own call and to the next flush. */
  const REFUSED := [
    Steps(Switch(SetKill(true))), Steps(Switch(SetterWrites(0, Refusal))), Steps(Deliver(StartFlush)),
    Steps(Deliver(Lock(Flusher))), Steps(Deliver(WriteKill(Refusal))), Steps(Deliver(ClearKill))]

  /** Without either assumption the switch can read clean while the store holds the other value. */
  lemma OverlappingCallsDisagree(p: Policy, watched: Subject, r: Replica)
    requires Starts(r)
    ensures CanPlay(p, watched, System(r, false), OVERLAP)
    ensures
      var end := Play(p, watched, System(r, false), OVERLAP);
      !end.r.kill.dirty && !end.r.kill.lastSet && end.stored
  {
  }

  lemma RefusedKillDisagrees(p: Policy, watched: Subject, r: Replica)
    requires Starts(r)
    ensures CanPlay(p, watched, System(r, false), REFUSED)
    ensures
      var end := Play(p, watched, System(r, false), REFUSED);
      !end.r.kill.dirty && end.r.kill.lastSet && !end.stored
  {
  }

  // Operators' own writes.

  /** Moves of a run that set the switch outside a gap, and those in which an operator's call writes to the store. */
  function Sets(p: Policy, watched: Subject, r: Replica, ms: seq<Move>): nat
    requires CanRun(p, watched, r, ms)
    decreases |ms|
  {
    if ms == [] then 0
    else
      (if ms[0].Steps? && ms[0].step.Switch? && ms[0].step.switch.SetKill? && !r.degraded then 1 else 0)
      + Sets(p, watched, Moved(p, watched, r, ms[0]), ms[1..])
  }

  function Writes(ms: seq<Move>): nat {
    if ms == [] then 0
    else (if ms[0].Steps? && ms[0].step.Switch? && ms[0].step.switch.SetterWrites? then 1 else 0) + Writes(ms[1..])
  }

  function Waiting(setters: seq<Setter>): nat {
    if setters == [] then 0 else Waiting(setters[..|setters| - 1]) + if setters[|setters| - 1].ToWrite? then 1 else 0
  }

  lemma {:induction false} WaitingWithout(setters: seq<Setter>, i: nat)
    requires i < |setters|
    ensures Waiting(setters[..i] + setters[i + 1..]) + (if setters[i].ToWrite? then 1 else 0) == Waiting(setters)
  {
    var n := |setters| - 1;
    if i == n {
      assert setters[..i] + setters[i + 1..] == setters[..n];
    } else {
      WaitingWithout(setters[..n], i);
      assert (setters[..i] + setters[i + 1..])[..n - 1] == setters[..n][..i] + setters[..n][i + 1..];
    }
  }

  lemma {:induction false} WaitingReplaced(setters: seq<Setter>, i: nat, s: Setter)
    requires i < |setters| && setters[i].ToWrite? && !s.ToWrite?
    ensures Waiting(setters[i := s]) + 1 == Waiting(setters)
  {
    var n := |setters| - 1;
    if i == n {
      assert setters[i := s][..n] == setters[..n];
    } else {
      WaitingReplaced(setters[..n], i, s);
      assert setters[i := s][..n] == setters[..n][i := s];
    }
  }

  lemma SettersStay(r: Replica, d: DeliveryStep, e: RecoveryStep)
    ensures CanDeliver(r, d) ==> Delivered(r, d).kill.setters == r.kill.setters
    ensures CanRecover(r, e) ==> Recovered(r, e).kill.setters == r.kill.setters
  {
    hide HeadSent, BatchTaken, Seed;
  }

  lemma SetterWritesOnce(r: Replica, step: SwitchStep)
    requires CanSwitch(r, step)
    ensures Waiting(Switched(r, step).kill.setters) + (if step.SetterWrites? then 1 else 0)
         == Waiting(r.kill.setters) + (if step.SetKill? && !r.degraded then 1 else 0)
  {
    hide Seed;
    match step {
      case SetKill(on) =>
        var setter := ToWrite(on, r.kill.gen + 1);
        assert (r.kill.setters + [setter])[..|r.kill.setters|] == r.kill.setters;
      case SetterWrites(i, fate) =>
        WaitingWithout(r.kill.setters, i);
        WaitingReplaced(r.kill.setters, i, Wrote(r.kill.setters[i].gen));
      case SetterClears(i) => WaitingWithout(r.kill.setters, i);
      case _ =>
    }
  }

  lemma WritesStep(p: Policy, watched: Subject, r: Replica, m: Move)
    requires CanMove(r, m)
    ensures Waiting(Moved(p, watched, r, m).kill.setters) + Writes([m]) == Waiting(r.kill.setters) + Sets(p, watched, r, [m])
  {
    hide NewStops, Histories.Next, OweAll, Enqueued, CanDeliver, CanRecover, CanSwitch, Delivered, Recovered, Switched, Waiting;
    assert [m][1..] == [];
    match m {
      case Owes(_) =>
      case Decides(i, e) =>
        OwingKeeps(OnFallback(p, watched, r, i, e), NewStops(p, r.fallbacks[i].ctl, e));
      case Steps(step) =>
        match step {
          case Deliver(d) => SettersStay(r, d, Begin);
          case Recover(e) => SettersStay(r, Finish, e);
          case Switch(d) => SetterWritesOnce(r, d);
        }
    }
  }

  /** Each of an operator's calls outside a gap writes to the store once, or is still to. */
  lemma {:induction false} OneWriteEach(p: Policy, watched: Subject, r: Replica, ms: seq<Move>)
    requires CanRun(p, watched, r, ms)
    ensures Writes(ms) + Waiting(Ran(p, watched, r, ms).kill.setters) == Waiting(r.kill.setters) + Sets(p, watched, r, ms)
    decreases |ms|
  {
    hide CanMove, Moved, Waiting;
    if ms != [] {
      WritesStep(p, watched, r, ms[0]);
      assert [ms[0]][1..] == [];
      OneWriteEach(p, watched, Moved(p, watched, r, ms[0]), ms[1..]);
    }
  }
}

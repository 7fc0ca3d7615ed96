/**
  One replica of the shared counter: whether it decides by the store or by a per-process
  fallback, what it owes the store, its kill switch, and the three goroutines that deliver
  (a flush, a recovery, an operator's kill write), interleaved step by step. What became of a
  command sent to the store is a choice of the step that sends it.
 */
module Replica {
  import opened Control
  import opened Histories
  import Store

  const MAX_OWED: nat := 10000
  const FLUSH_BATCH: nat := 200
  const WRITE_BACK_PASSES: nat := 3

  /** A command owed, numbered in order of owing. */
  datatype Item = Item(id: nat, cmd: Store.Command)

  /**
    What the store is owed, and the batch a delivery has taken from the front of it; and, as
    history, every item ever owed, what became of the others, and in what order ids first ran.
   */
  datatype Queue = Queue(
    owed: seq<Item>, batch: seq<Item>,
    all: seq<Item>, taken: seq<Item>, refused: seq<Item>, dropped: seq<Item>, firsts: seq<nat>)

  /** An operator's kill call that goes to the store itself: about to write, or written and about to say so. */
  datatype Setter = ToWrite(on: bool, gen: nat) | Wrote(gen: nat)

  /** The kill switch: what it is here, whether the store has yet to take that, and the operator's calls under way. */
  datatype Kill = Kill(on: bool, dirty: bool, gen: nat, lastSet: bool, setters: seq<Setter>)

  /** A per-process controller, whether it was built for a gap, and the watched run's history in it. */
  datatype Fallback = Fallback(ctl: Ctl, gap: bool, ledger: Ledger)

  /** Who holds the delivery lock. */
  datatype Holder = Nobody | Flusher | Recoverer

  /** Where the holder stands: about to write the kill switch, about to mark it written, or emptying the queue. */
  datatype Stage = WritingKill(on: bool, gen: nat) | KillWritten(gen: nat) | Draining

  /** Where the recovery stands. Pass and Last deliver; Undoing is a last delivery that failed. */
  datatype Recovery =
    | NoRecovery
    | Pass(n: nat) | Passed(n: nat)
    | Asking | Swapping(read: bool)
    | Last | Undoing

  /** What became of a command: taken, answered with an error, or unanswered, carried out or not. */
  datatype Fate = Done | Refusal | Lost(executed: bool)

  predicate Executed(fate: Fate) {
    fate.Done? || (fate.Lost? && fate.executed)
  }

  /** Of `fallbacks`, every one ever built, the last is the one requests are sent to. */
  datatype Replica = Replica(
    degraded: bool, fallbacks: seq<Fallback>, kill: Kill, queue: Queue,
    flushing: bool, recovery: Recovery, holder: Holder, stage: Stage)

  // The queue.

  /** Queues a command; a full queue drops its oldest item. */
  function Enqueued(q: Queue, cmd: Store.Command): Queue {
    Appended(if |q.owed| >= MAX_OWED then OldestDropped(q) else q, cmd)
  }

  function OldestDropped(q: Queue): Queue
    requires q.owed != []
  {
    q.(owed := q.owed[1..], dropped := q.dropped + [q.owed[0]])
  }

  function Appended(q: Queue, cmd: Store.Command): Queue {
    var item := Item(|q.all|, cmd);
    q.(owed := q.owed + [item], all := q.all + [item])
  }

  function BatchTaken(q: Queue): Queue {
    var k := if |q.owed| > FLUSH_BATCH then FLUSH_BATCH else |q.owed|;
    q.(batch := q.owed[..k], owed := q.owed[k..])
  }

  /** The rest of an abandoned batch, back at the front of the queue. */
  function PutBack(q: Queue): Queue {
    q.(owed := q.batch + q.owed, batch := [])
  }

  /** Runs the head of the batch; it is noted if it has not run before. */
  function HeadRan(q: Queue): Queue
    requires q.batch != []
  {
    var id := q.batch[0].id;
    if q.firsts != [] && q.firsts[|q.firsts| - 1] == id then q else q.(firsts := q.firsts + [id])
  }

  function HeadSent(q: Queue, fate: Fate): Queue
    requires q.batch != []
  {
    match fate
    case Done => HeadRan(q).(taken := q.taken + [q.batch[0]], batch := q.batch[1..])
    case Refusal => q.(refused := q.refused + [q.batch[0]], batch := q.batch[1..])
    case Lost(executed) => PutBack(if executed then HeadRan(q) else q)
  }

  function Owe(r: Replica, cmd: Store.Command): Replica {
    r.(queue := Enqueued(r.queue, cmd))
  }

  // Fallbacks.

  /** A controller new but for its kill switch and for runs and keys it holds paused. */
  ghost predicate Seed(c: Ctl, killed: bool) {
    && c.killed == killed && c.stops == []
    && (forall id :: id in c.runs ==> c.runs[id] == FRESH_RUN.(paused := true, reason := c.runs[id].reason))
    && (forall id :: id in c.keys ==>
          var ks := c.keys[id];
          ks == FreshKey(ks.day).(paused := true, reason := ks.reason, dayPause := ks.dayPause, lastSeen := ks.lastSeen))
  }

  function Build(r: Replica, seed: Ctl, gap: bool): Replica {
    r.(fallbacks := r.fallbacks + [Fallback(seed, gap, NEW_LEDGER)])
  }

  /** What a stop event makes the replica owe. */
  function PauseOf(ev: StopEvent): Store.Command {
    if ev.key != "" && ev.run == "" then Store.DoPauseKey(ev.key, ev.reason, ev.dayPause, DayOf(ev.at))
    else Store.DoPauseRun(ev.run, ev.reason)
  }

  function OweAll(r: Replica, evs: seq<StopEvent>): Replica
    decreases |evs|
  {
    if evs == [] then r else OweAll(Owe(r, PauseOf(evs[0])), evs[1..])
  }

  /** The i-th fallback after an event. */
  function OnFallback(p: Policy, watched: Subject, r: Replica, i: nat, e: Event): Replica
    requires i < |r.fallbacks|
  {
    var f := r.fallbacks[i];
    var w := Histories.Next(p, watched, World(f.ctl, f.ledger), e);
    r.(fallbacks := r.fallbacks[i := f.(ctl := w.ctl, ledger := w.ledger)])
  }

  /** An operation on the i-th fallback. Pauses made in a gap are owed. */
  function Operate(p: Policy, watched: Subject, r: Replica, i: nat, e: Event): Replica
    requires i < |r.fallbacks|
  {
    var r1 := OnFallback(p, watched, r, i, e);
    if r.fallbacks[i].gap then OweAll(r1, NewStops(p, r.fallbacks[i].ctl, e)) else r1
  }

  // The steps: a delivery's (a flush's, or one pass of a recovery), a recovery's, and those of
  // requests and operators.

  datatype DeliveryStep =
    | StartFlush
    | Lock(holder: Holder)
    | WriteKill(fate: Fate)
    | ClearKill
    | TakeBatch
    | Take(fate: Fate)
    | Finish

  datatype RecoveryStep =
    | Begin
    | CheckQuiet
    | SkipReading
    | ReadKill(on: bool)
    | CannotRead
    | Swap(seed: Ctl)
    | Undo(seed: Ctl)

  datatype SwitchStep =
    | Degrade(seed: Ctl)
    | SetKill(on: bool)
    | SetterWrites(i: nat, fate: Fate)
    | SetterClears(i: nat)
    | Mirror(on: bool)

  datatype Step = Deliver(delivery: DeliveryStep) | Recover(recovery: RecoveryStep) | Switch(switch: SwitchStep)

  /** Whether the replica's goroutines can take a step. */
  ghost predicate Enabled(r: Replica, step: Step) {
    match step
    case Deliver(d) => CanDeliver(r, d)
    case Recover(d) => CanRecover(r, d)
    case Switch(d) => CanSwitch(r, d)
  }

  predicate CanDeliver(r: Replica, step: DeliveryStep) {
    match step
    case StartFlush =>
      !r.flushing && r.recovery.NoRecovery? && !r.degraded && (r.kill.dirty || r.queue.owed != [])
    case Lock(holder) =>
      r.holder.Nobody? && ((holder.Flusher? && r.flushing) || (holder.Recoverer? && (r.recovery.Pass? || r.recovery.Last?)))
    case WriteKill(_) => !r.holder.Nobody? && r.stage.WritingKill?
    case ClearKill => !r.holder.Nobody? && r.stage.KillWritten?
    case TakeBatch => !r.holder.Nobody? && r.stage.Draining? && r.queue.batch == [] && r.queue.owed != []
    case Take(_) => !r.holder.Nobody? && r.stage.Draining? && r.queue.batch != []
    case Finish => !r.holder.Nobody? && r.stage.Draining? && r.queue.batch == [] && r.queue.owed == []
  }

  ghost predicate CanRecover(r: Replica, step: RecoveryStep) {
    match step
    case Begin => r.degraded && r.recovery.NoRecovery?
    case CheckQuiet => r.recovery.Passed?
    case SkipReading => r.recovery.Asking? && r.kill.dirty
    case ReadKill(_) => r.recovery.Asking?
    case CannotRead => r.recovery.Asking?
    case Swap(seed) => r.recovery.Swapping? && Seed(seed, if r.kill.dirty then r.kill.on else r.recovery.read)
    case Undo(seed) => r.recovery.Undoing? && Seed(seed, r.kill.on)
  }

  ghost predicate CanSwitch(r: Replica, step: SwitchStep) {
    match step
    case Degrade(seed) => !r.degraded && Seed(seed, r.kill.on)
    case SetKill(_) => r.fallbacks != []
    case SetterWrites(i, _) => i < |r.kill.setters| && r.kill.setters[i].ToWrite? && r.holder.Nobody?
    case SetterClears(i) => i < |r.kill.setters| && r.kill.setters[i].Wrote?
    case Mirror(_) => r.fallbacks != []
  }

  /** A delivery that failed lets the lock go. */
  function LetGo(r: Replica): Replica {
    if r.holder.Flusher? then r.(holder := Nobody, flushing := false)
    else r.(holder := Nobody, recovery := if r.recovery.Last? then Undoing else NoRecovery)
  }

  /** The switch as the replica and its fallback hold it, both set. */
  function WithKill(r: Replica, on: bool): Replica
    requires r.fallbacks != []
  {
    var last := |r.fallbacks| - 1;
    var f := r.fallbacks[last];
    r.(kill := r.kill.(on := on), fallbacks := r.fallbacks[last := f.(ctl := f.ctl.(killed := on))])
  }

  /** The switch is clean once the write of its latest value has been answered. */
  function Marked(k: Kill, gen: nat): Kill {
    if k.gen == gen then k.(dirty := false) else k
  }

  function Without(k: Kill, i: nat): Kill
    requires i < |k.setters|
  {
    k.(setters := k.setters[..i] + k.setters[i + 1..])
  }

  function After(r: Replica, step: Step): Replica
    requires Enabled(r, step)
  {
    match step
    case Deliver(d) => Delivered(r, d)
    case Recover(d) => Recovered(r, d)
    case Switch(d) => Switched(r, d)
  }

  function Delivered(r: Replica, step: DeliveryStep): Replica
    requires CanDeliver(r, step)
  {
    match step
    case StartFlush => r.(flushing := true)
    case Lock(holder) =>
      r.(holder := holder, stage := if r.kill.dirty then WritingKill(r.kill.on, r.kill.gen) else Draining)
    case WriteKill(fate) => if fate.Lost? then LetGo(r) else r.(stage := KillWritten(r.stage.gen))
    case ClearKill => r.(kill := Marked(r.kill, r.stage.gen), stage := Draining)
    case TakeBatch => r.(queue := BatchTaken(r.queue))
    case Take(fate) =>
      var r1 := r.(queue := HeadSent(r.queue, fate));
      if fate.Lost? then LetGo(r1) else r1
    case Finish =>
      if r.holder.Flusher? then r.(holder := Nobody, flushing := false)
      else r.(holder := Nobody, recovery := if r.recovery.Pass? then Passed(r.recovery.n) else NoRecovery)
  }

  function Recovered(r: Replica, step: RecoveryStep): Replica
    requires CanRecover(r, step)
  {
    match step
    case Begin => r.(recovery := Pass(0))
    case CheckQuiet =>
      var n := r.recovery.n;
      var quiet := !r.kill.dirty && r.queue.owed == [];
      r.(recovery := if quiet || n + 1 >= WRITE_BACK_PASSES then Asking else Pass(n + 1))
    case SkipReading => r.(recovery := Swapping(false))
    case ReadKill(on) => r.(recovery := Swapping(on))
    case CannotRead => r.(recovery := NoRecovery)
    case Swap(seed) =>
      Build(r, seed, false).(kill := r.kill.(on := seed.killed), degraded := false, recovery := Last)
    case Undo(seed) =>
      var r1 := if r.degraded then r else Build(r, seed, true).(degraded := true);
      r1.(recovery := NoRecovery)
  }

  function Switched(r: Replica, step: SwitchStep): Replica
    requires CanSwitch(r, step)
  {
    match step
    case Degrade(seed) => Build(r, seed, true).(degraded := true)
    case SetKill(on) =>
      var k := r.kill.(on := on, dirty := true, gen := r.kill.gen + 1, lastSet := on);
      WithKill(r, on).(kill := if r.degraded then k else k.(setters := k.setters + [ToWrite(on, k.gen)]))
    case SetterWrites(i, fate) =>
      r.(kill := if fate.Done? then r.kill.(setters := r.kill.setters[i := Wrote(r.kill.setters[i].gen)])
                 else Without(r.kill, i))
    case SetterClears(i) => r.(kill := Without(Marked(r.kill, r.kill.setters[i].gen), i))
    case Mirror(on) => if !r.kill.dirty && r.kill.on != on then WithKill(r, on) else r
  }

  // Runs of one replica: it is asked to owe something, a fallback of its decides or settles a
  // call, or one of its goroutines takes a step. A fallback's kill switch is set with the
  // replica's, never by itself.

  datatype Move = Owes(cmd: Store.Command) | Decides(i: nat, e: Event) | Steps(step: Step)

  ghost predicate CanMove(r: Replica, m: Move) {
    match m
    case Owes(_) => true
    case Decides(i, e) => i < |r.fallbacks| && !e.op.SetKilled?
    case Steps(step) => Enabled(r, step)
  }

  function Moved(p: Policy, watched: Subject, r: Replica, m: Move): Replica
    requires CanMove(r, m)
  {
    match m
    case Owes(cmd) => Owe(r, cmd)
    case Decides(i, e) => Operate(p, watched, r, i, e)
    case Steps(step) => After(r, step)
  }

  ghost predicate CanRun(p: Policy, watched: Subject, r: Replica, ms: seq<Move>)
    decreases |ms|
  {
    ms == [] || (CanMove(r, ms[0]) && CanRun(p, watched, Moved(p, watched, r, ms[0]), ms[1..]))
  }

  function Ran(p: Policy, watched: Subject, r: Replica, ms: seq<Move>): Replica
    requires CanRun(p, watched, r, ms)
    decreases |ms|
  {
    if ms == [] then r else Ran(p, watched, Moved(p, watched, r, ms[0]), ms[1..])
  }

  const NO_QUEUE := Queue([], [], [], [], [], [], [])

  /** A replica as it starts: healthy, owing nothing, with a fallback that has decided nothing. */
  ghost predicate Starts(r: Replica) {
    && |r.fallbacks| == 1 && Seed(r.fallbacks[0].ctl, false) && r.fallbacks[0].ledger == NEW_LEDGER
    && r == Replica(false, r.fallbacks, Kill(false, false, 0, false, []), NO_QUEUE, false, NoRecovery, Nobody, Draining)
  }
}

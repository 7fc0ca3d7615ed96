/**
  The client's connection pool, as its goroutines share it. A slot is held from the moment a
  goroutine asks for a connection until it is done with one; an idle connection holds none,
  and taking a slot, looking for an idle connection, taking a turn to dial, and giving each
  back are separate steps, in any interleaving.
 */
module Pool {
  import opened Sets

  const SLOTS: nat := 64
  const DIALS: nat := 8

  /** Where a goroutine stands. Opened and NotOpened have dialled, and hold their turn to dial still. */
  datatype Stage =
    | Away
    | Looking
    | Waiting
    | Dialling | Opened(conn: nat) | NotOpened
    | Using(conn: nat)
    | Leaving

  /** `slots` and `dials` are how many tokens are taken; connections are numbered as they open. */
  datatype Pool = Pool(slots: nat, dials: nat, idle: seq<nat>, workers: map<nat, Stage>, made: nat)

  datatype Step =
    | TakeSlot
    | Look
    | TakeTurn | NoTurn
    | Dial(ok: bool) | EndTurn
    | Put | Discard
    | Leave

  function StageOf(p: Pool, g: nat): Stage {
    if g in p.workers then p.workers[g] else Away
  }

  predicate Enabled(p: Pool, g: nat, step: Step) {
    var stage := StageOf(p, g);
    match step
    case TakeSlot => stage.Away? && p.slots < SLOTS
    case Look => stage.Looking?
    case TakeTurn => stage.Waiting? && p.dials < DIALS
    case NoTurn => stage.Waiting?
    case Dial(_) => stage.Dialling?
    case EndTurn => (stage.Opened? || stage.NotOpened?) && p.dials > 0
    case Put => stage.Using?
    case Discard => stage.Using?
    case Leave => stage.Leaving? && p.slots > 0
  }

  function At(p: Pool, g: nat, stage: Stage): Pool {
    p.(workers := p.workers[g := stage])
  }

  function After(p: Pool, g: nat, step: Step): Pool
    requires Enabled(p, g, step)
  {
    match step
    case TakeSlot => At(p, g, Looking).(slots := p.slots + 1)
    case Look =>
      if p.idle == [] then At(p, g, Waiting)
      else At(p, g, Using(p.idle[|p.idle| - 1])).(idle := p.idle[..|p.idle| - 1])
    case TakeTurn => At(p, g, Dialling).(dials := p.dials + 1)
    case NoTurn => At(p, g, Leaving)
    case Dial(ok) => if ok then At(p, g, Opened(p.made)).(made := p.made + 1) else At(p, g, NotOpened)
    case EndTurn =>
      At(p, g, if StageOf(p, g).Opened? then Using(StageOf(p, g).conn) else Leaving).(dials := p.dials - 1)
    case Put => At(p, g, Leaving).(idle := p.idle + [StageOf(p, g).conn])
    case Discard => At(p, g, Leaving)
    case Leave => At(p, g, Away).(slots := p.slots - 1)
  }

  // Who holds what.

  predicate HoldsSlot(stage: Stage) {
    !stage.Away?
  }

  predicate HoldsTurn(stage: Stage) {
    stage.Dialling? || stage.Opened? || stage.NotOpened?
  }

  predicate HasConnection(stage: Stage) {
    stage.Opened? || stage.Using?
  }

  /** Has a connection, opens one, or found none idle and will open one. */
  predicate Committed(stage: Stage) {
    HasConnection(stage) || HoldsTurn(stage) || stage.Waiting?
  }

  function Slotted(p: Pool): set<nat> {
    set g | g in p.workers && HoldsSlot(p.workers[g])
  }

  function Turned(p: Pool): set<nat> {
    set g | g in p.workers && HoldsTurn(p.workers[g])
  }

  function Bound(p: Pool): set<nat> {
    set g | g in p.workers && Committed(p.workers[g])
  }

  /** Goroutines that have a connection checked out or are dialling one. */
  function Connected(p: Pool): set<nat> {
    set g | g in p.workers && (HasConnection(p.workers[g]) || p.workers[g].Dialling?)
  }

  // The invariants.

  /** The channels count their holders. */
  ghost predicate Counted(p: Pool) {
    p.slots == |Slotted(p)| <= SLOTS && p.dials == |Turned(p)| <= DIALS
  }

  /** Idle connections and goroutines with one, or bound to open one, share the slots between them. */
  ghost predicate Shared(p: Pool) {
    |p.idle| + |Bound(p)| <= SLOTS
  }

  /** No connection is in two hands. */
  ghost predicate Distinct(p: Pool) {
    && (forall i, j :: 0 <= i < j < |p.idle| ==> p.idle[i] != p.idle[j])
    && (forall g, h :: g in p.workers && h in p.workers && g != h && HasConnection(p.workers[g]) && HasConnection(p.workers[h])
                       ==> p.workers[g].conn != p.workers[h].conn)
    && (forall g :: g in p.workers && HasConnection(p.workers[g]) ==> p.workers[g].conn !in p.idle)
    && (forall c <- p.idle :: c < p.made)
    && (forall g :: g in p.workers && HasConnection(p.workers[g]) ==> p.workers[g].conn < p.made)
  }

  ghost predicate Kept(p: Pool) {
    Counted(p) && Shared(p) && Distinct(p)
  }

  /** What one goroutine's change of stage makes of the sets. */
  lemma SetsAfter(p: Pool, g: nat, stage: Stage)
    ensures
      var p' := At(p, g, stage);
      && Slotted(p') == (if HoldsSlot(stage) then Slotted(p) + {g} else Slotted(p) - {g})
      && Turned(p') == (if HoldsTurn(stage) then Turned(p) + {g} else Turned(p) - {g})
      && Bound(p') == (if Committed(stage) then Bound(p) + {g} else Bound(p) - {g})
  {
  }

  lemma SetsSame(p: Pool, p': Pool)
    requires p'.workers == p.workers
    ensures Slotted(p') == Slotted(p) && Turned(p') == Turned(p) && Bound(p') == Bound(p)
  {
  }

  function StageAfter(p: Pool, g: nat, step: Step): Stage
    requires Enabled(p, g, step)
  {
    StageOf(After(p, g, step), g)
  }

  function One(b: bool): nat {
    if b then 1 else 0
  }

  /** What one goroutine's change of stage makes of the counts. */
  lemma SizesAfter(p: Pool, g: nat, stage: Stage)
    ensures
      var p', was := At(p, g, stage), StageOf(p, g);
      && |Slotted(p')| == |Slotted(p)| + One(HoldsSlot(stage)) - One(HoldsSlot(was))
      && |Turned(p')| == |Turned(p)| + One(HoldsTurn(stage)) - One(HoldsTurn(was))
      && |Bound(p')| == |Bound(p)| + One(Committed(stage)) - One(Committed(was))
  {
    hide Slotted, Turned, Bound, At;
    SetsAfter(p, g, stage);
    Members(p, g);
  }

  lemma StepCounts(p: Pool, g: nat, step: Step)
    requires Enabled(p, g, step) && Counted(p)
    ensures Counted(After(p, g, step))
  {
    hide Slotted, Turned, Bound;
    var stage := StageAfter(p, g, step);
    SizesAfter(p, g, stage);
    SetsSame(At(p, g, stage), After(p, g, step));
  }

  lemma Members(p: Pool, g: nat)
    ensures g in Slotted(p) <==> HoldsSlot(StageOf(p, g))
    ensures g in Turned(p) <==> HoldsTurn(StageOf(p, g))
    ensures g in Bound(p) <==> Committed(StageOf(p, g))
  {
  }

  /**
    The one step that could pass the bound is finding no connection idle: but then every
    goroutine with a connection, or bound to open one, holds a slot.
   */
  lemma StepShares(p: Pool, g: nat, step: Step)
    requires Enabled(p, g, step) && Counted(p) && Shared(p)
    ensures Shared(After(p, g, step))
  {
    hide Slotted, Turned, Bound;
    var p' := After(p, g, step);
    var stage := StageAfter(p, g, step);
    StepCounts(p, g, step);
    BoundHoldSlots(p');
    SizesAfter(p, g, stage);
    SetsSame(At(p, g, stage), p');
  }

  lemma BoundHoldSlots(p: Pool)
    ensures |Bound(p)| <= |Slotted(p)|
  {
    Fewer(Bound(p), Slotted(p));
  }

  lemma LookDistinct(p: Pool, g: nat)
    requires Enabled(p, g, Look) && Distinct(p)
    ensures Distinct(After(p, g, Look))
  {
    if p.idle != [] {
      var p', last := After(p, g, Look), p.idle[|p.idle| - 1];
      assert last in p.idle && last !in p'.idle;
      assert forall c <- p'.idle :: c in p.idle;
      assert forall h :: h in p.workers && HasConnection(p.workers[h]) ==> p.workers[h].conn != last;
    }
  }

  lemma PutDistinct(p: Pool, g: nat)
    requires Enabled(p, g, Put) && Distinct(p)
    ensures Distinct(After(p, g, Put))
  {
    var p', conn := After(p, g, Put), p.workers[g].conn;
    assert forall c <- p'.idle :: c in p.idle || c == conn;
    assert forall h :: h in p'.workers && HasConnection(p'.workers[h]) ==>
                         h in p.workers && p'.workers[h] == p.workers[h] && h != g;
  }

  lemma StepDistinct(p: Pool, g: nat, step: Step)
    requires Enabled(p, g, step) && Distinct(p)
    ensures Distinct(After(p, g, step))
  {
    match step {
      case Look => LookDistinct(p, g);
      case Put => PutDistinct(p, g);
      case _ => assert After(p, g, step).idle == p.idle;
    }
  }

  // Runs.

  datatype Move = Move(g: nat, step: Step)

  predicate CanRun(p: Pool, moves: seq<Move>)
    decreases |moves|
  {
    moves == [] || (Enabled(p, moves[0].g, moves[0].step) && CanRun(After(p, moves[0].g, moves[0].step), moves[1..]))
  }

  function Ran(p: Pool, moves: seq<Move>): Pool
    requires CanRun(p, moves)
    decreases |moves|
  {
    if moves == [] then p else Ran(After(p, moves[0].g, moves[0].step), moves[1..])
  }

  lemma {:induction false} RunKeeps(p: Pool, moves: seq<Move>)
    requires CanRun(p, moves) && Kept(p)
    ensures Kept(Ran(p, moves))
    decreases |moves|
  {
    hide Counted, Shared, Distinct, After, Enabled;
    if moves != [] {
      StepCounts(p, moves[0].g, moves[0].step);
      StepShares(p, moves[0].g, moves[0].step);
      StepDistinct(p, moves[0].g, moves[0].step);
      RunKeeps(After(p, moves[0].g, moves[0].step), moves[1..]);
    }
  }

  const COLD := Pool(0, 0, [], map[], 0)

  /**
    Under any interleaving: connections idle, checked out or being dialled never outnumber the
    slots, though idle ones hold none; no more than the dial limit are being dialled; no connection
    is in two hands.
   */
  lemma {:induction false} PoolBound(moves: seq<Move>, p: Pool)
    requires CanRun(COLD, moves) && p == Ran(COLD, moves)
    ensures |p.idle| + |Connected(p)| <= SLOTS
    ensures |Turned(p)| <= DIALS
    ensures forall g, h :: g in Connected(p) && h in Connected(p) && g != h && !p.workers[g].Dialling? && !p.workers[h].Dialling?
                           ==> p.workers[g].conn != p.workers[h].conn
    ensures forall g <- Connected(p) :: !p.workers[g].Dialling? ==> p.workers[g].conn !in p.idle
  {
    RunKeeps(COLD, moves);
    assert Connected(p) <= Bound(p);
    Fewer(Connected(p), Bound(p));
  }

  // Giving back.

  /** Whoever holds a slot, or a turn to dial, finds one to give back. */
  lemma GivesBack(p: Pool, g: nat)
    requires Counted(p)
    ensures HoldsSlot(StageOf(p, g)) ==> p.slots > 0
    ensures HoldsTurn(StageOf(p, g)) ==> p.dials > 0
  {
    if HoldsSlot(StageOf(p, g)) {
      assert g in Slotted(p);
    }
    if HoldsTurn(StageOf(p, g)) {
      assert g in Turned(p);
    }
  }

  /** How far a goroutine is from being done. */
  function Steps(stage: Stage): nat {
    match stage
    case Away => 0
    case Leaving => 1
    case Using(_) => 2
    case Waiting => 2
    case NotOpened => 2
    case Opened(_) => 3
    case Dialling => 3
    case Looking => 4
  }

  /** The next step of a goroutine that finds no turn, and whose dialling fails. */
  function NextStep(stage: Stage): Step {
    match stage
    case Away => TakeSlot
    case Looking => Look
    case Waiting => NoTurn
    case Dialling => Dial(false)
    case Opened(_) => EndTurn
    case NotOpened => EndTurn
    case Using(_) => Put
    case Leaving => Leave
  }

  /** What a goroutine keeps the others out of: its slot and its turn. */
  function Held(stage: Stage): (nat, nat) {
    (if HoldsSlot(stage) then 1 else 0, if HoldsTurn(stage) then 1 else 0)
  }

  lemma OneStep(p: Pool, g: nat)
    requires Kept(p) && !StageOf(p, g).Away?
    ensures
      var stage := StageOf(p, g);
      && Enabled(p, g, NextStep(stage))
      && var p1 := After(p, g, NextStep(stage));
         && Steps(StageOf(p1, g)) < Steps(stage) && (forall h :: h != g ==> StageOf(p1, h) == StageOf(p, h))
         && p1.slots + Held(stage).0 == p.slots + Held(StageOf(p1, g)).0
         && p1.dials + Held(stage).1 == p.dials + Held(StageOf(p1, g)).1
  {
    hide Shared, Distinct;
    GivesBack(p, g);
  }

  /**
    Whatever the others do or do not, a goroutine can always finish by steps of its own, and gives back
    the slot and the turn it holds; nothing it holds is ever lost.
   */
  lemma {:induction false} CanFinish(p: Pool, g: nat) returns (moves: seq<Move>, end: Pool)
    requires Kept(p)
    ensures CanRun(p, moves) && end == Ran(p, moves) && forall m <- moves :: m.g == g
    ensures StageOf(end, g).Away? && forall h :: h != g ==> StageOf(end, h) == StageOf(p, h)
    ensures end.slots + Held(StageOf(p, g)).0 == p.slots && end.dials + Held(StageOf(p, g)).1 == p.dials
    decreases Steps(StageOf(p, g))
  {
    hide Counted, Shared, Distinct, Held;
    var stage := StageOf(p, g);
    if stage.Away? {
      moves, end := [], p;
      NothingHeld();
    } else {
      hide After, Enabled;
      var step := NextStep(stage);
      OneStep(p, g);
      StepCounts(p, g, step);
      StepShares(p, g, step);
      StepDistinct(p, g, step);
      var more;
      more, end := CanFinish(After(p, g, step), g);
      moves := [Move(g, step)] + more;
      assert moves[1..] == more;
    }
  }

  lemma NothingHeld()
    ensures Held(Away) == (0, 0)
  {
  }
}

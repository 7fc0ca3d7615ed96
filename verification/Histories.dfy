/**
  Histories: one run's, or one API key's, through any trace of the controller's operations.

  A resume, an eviction or midnight wipes tallies while calls are still out, so the tallies
  alone bound nothing; what is bounded is the history kept here beside them.
 */
module Histories {
  import opened Money
  import opened Control

  /** Whose history it is. */
  datatype Subject = Run(id: string) | Key(id: string)

  /**
    Calls served, forced through, given back and recorded; calls out, that is served and neither
    recorded nor given back; dollars recorded; times all tallies were wiped (an eviction, or an effective
    resume, for a key after a total-cap pause); reservations wiped on their own (by midnight, or
    by resuming a key after a daily pause); pauses an operator lifted, and pauses midnight lifted.
   */
  datatype Ledger = Ledger(
    admitted: nat, bypassed: nat, released: nat, recorded: nat, out: nat, spent: real,
    clearances: nat, wiped: nat, resumes: nat, midnights: nat)

  const NEW_LEDGER := Ledger(0, 0, 0, 0, 0, 0.0, 0, 0, 0, 0)

  /** Reservations a key's tallies lose when the key is touched now. */
  function LostAtMidnight(c: Ctl, key: string, now: nat): nat {
    if key in c.keys && DayOf(now) > c.keys[key].day then c.keys[key].inflight else 0
  }

  /** Whether touching a key now lifts a daily pause made on an earlier day. */
  predicate LiftedAtMidnight(c: Ctl, key: string, now: nat) {
    key in c.keys && DayOf(now) > c.keys[key].day && c.keys[key].dayPause
  }

  /** A key's history once the day has been looked at. */
  function Rolled(c: Ctl, key: string, now: nat, l: Ledger): Ledger {
    l.(wiped := l.wiped + LostAtMidnight(c, key, now),
       midnights := l.midnights + if LiftedAtMidnight(c, key, now) then 1 else 0)
  }

  predicate Concerns(s: Subject, run: string, key: string) {
    if s.Run? then run == s.id else key == s.id
  }

  /** What one operation adds to the history of s. */
  function Tally(p: Policy, c: Ctl, op: Op, now: nat, s: Subject, l: Ledger): Ledger {
    var rolled := if s.Key? then Rolled(c, s.id, now, l) else l;
    match op
    case Admit(run, key, bypass) =>
      if c.killed || !Concerns(s, run, key) then l
      else if Core(p, c, op, now).reply.ok then
        rolled.(admitted := l.admitted + 1, out := l.out + 1, bypassed := l.bypassed + if bypass then 1 else 0)
      else rolled
    case Record(run, key, cost, loop) =>
      if Concerns(s, run, key) then
        rolled.(recorded := l.recorded + 1, out := Dec(l.out), spent := l.spent + cost)
      else l
    case Release(run, key) =>
      if Concerns(s, run, key) then l.(out := Dec(l.out), released := l.released + 1) else l
    case ResumeRun(run) =>
      if s == Run(run) && RunIsPaused(c, run) then l.(resumes := l.resumes + 1, clearances := l.clearances + 1) else l
    case ResumeKey(key) =>
      if s != Key(key) || !KeyIsPaused(c, key) then l
      else if c.keys[key].dayPause then l.(resumes := l.resumes + 1, wiped := l.wiped + c.keys[key].inflight)
      else l.(resumes := l.resumes + 1, clearances := l.clearances + 1)
    case NoteKey(key) => if s == Key(key) then rolled else l
    case _ => l
  }

  /** Every admitted call is balanced by at most one record or release: one must be out to be settled. */
  predicate Settles(op: Op, s: Subject, l: Ledger) {
    (op.Record? || op.Release?) && Concerns(s, op.run, op.key) ==> l.out > 0
  }

  datatype World = World(ctl: Ctl, ledger: Ledger)

  function Operated(p: Policy, s: Subject, w: World, op: Op, now: nat): World {
    World(Core(p, w.ctl, op, now).ctl, Tally(p, w.ctl, op, now, s, w.ledger))
  }

  /** Eviction wipes tallies like a resume does. */
  function Dropped(w: World, s: Subject, e: Event): World {
    World(Evict(w.ctl, e.runVictims, e.keyVictims),
          if s.id in (if s.Run? then e.runVictims else e.keyVictims) then
            w.ledger.(clearances := w.ledger.clearances + 1)
          else w.ledger)
  }

  /** One event: the operation, then what it evicts. */
  function Next(p: Policy, s: Subject, w: World, e: Event): World {
    Dropped(Operated(p, s, w, e.op, e.now), s, e)
  }

  function Play(p: Policy, s: Subject, w: World, es: seq<Event>): World
    decreases |es|
  {
    if es == [] then w else Play(p, s, Next(p, s, w, es[0]), es[1..])
  }

  /** A trace of events the code can take from w, with every call of s settled at most once. */
  ghost predicate Possible(p: Policy, s: Subject, w: World, es: seq<Event>)
    decreases |es|
  {
    es == [] || (Legal(p, w.ctl, es[0]) && Settles(es[0].op, s, w.ledger) && Possible(p, s, Next(p, s, w, es[0]), es[1..]))
  }

  /** No call ever costs more than what the operator reserves for one. */
  predicate WithinFloor(p: Policy, op: Op) {
    op.Record? ==> 0.0 <= op.cost <= p.floor
  }

  /** A cap at the precision caps are compared at. */
  function Rounded(cap: real): real {
    Micro(cap) as real
  }
}

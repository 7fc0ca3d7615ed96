/**
  What an API key can spend before its total cap stops it, whatever runs it starts. Midnight
  and the resume of a daily pause wipe a key's reservations but not its total, so the bound
  counts the reservations wiped that way on their own.
 */
module KeyBounds {
  import opened Money
  import opened Control
  import opened Histories

  /** A key's total tallies: calls, calls in flight, dollars. */
  function Totals(ks: KeyState): (nat, nat, real) {
    (ks.lifeCalls, ks.inflight, ks.lifeSpend)
  }

  function TotalsOf(c: Ctl, k: string): (nat, nat, real) {
    if k in c.keys then Totals(c.keys[k]) else (0, 0, 0.0)
  }

  predicate Untouched(k: string, w: World) {
    TotalsOf(w.ctl, k) == (0, 0, 0.0) && w.ledger == NEW_LEDGER
  }

  /** The totals once the day has been looked at. */
  function RolledTotals(c: Ctl, k: string, now: nat): (nat, nat, real) {
    var t := TotalsOf(c, k);
    t.(1 := t.1 - LostAtMidnight(c, k, now))
  }

  lemma TouchKey(c: Ctl, run: string, key: string, now: nat, k: string)
    requires k != ""
    ensures TotalsOf(Touch(c, run, key, now), k) == if k == key then RolledTotals(c, k, now) else TotalsOf(c, k)
  {
  }

  lemma JudgeKey(p: Policy, c: Ctl, run: string, key: string, standing: Standing, now: nat, k: string)
    requires key != "" ==> key in c.keys
    requires standing == KeyAtCap ==> key != ""
    ensures TotalsOf(Judge(p, c, run, key, standing, now), k) == TotalsOf(c, k)
  {
  }

  lemma ReserveKey(c: Ctl, run: string, key: string, k: string)
    requires k != "" && (key != "" ==> key in c.keys)
    ensures var t := TotalsOf(c, k); TotalsOf(Reserve(c, run, key), k) == if k == key then t.(1 := t.1 + 1) else t
  {
  }

  /** A key's projected spend, at the precision caps are compared at, is below its total cap. */
  ghost predicate BelowTotalCap(p: Policy, t: (nat, nat, real)) {
    Micro(Projected(p.floor, t.2, t.0, t.1)) < Micro(p.maxKey)
  }

  lemma KeyLimitMeans(p: Policy, key: string, ks: KeyState)
    requires p.maxKey > 0.0 && KeyLimit(p, key, ks) == NoReason
    ensures BelowTotalCap(p, Totals(ks))
  {
  }

  /** An admitted call is one more in flight, and was below its key's total cap unless it was forced through. */
  lemma AdmitKey(p: Policy, c: Ctl, run: string, key: string, bypass: bool, now: nat, k: string)
    requires k != ""
    ensures
      var o := Core(p, c, Op.Admit(run, key, bypass), now);
      var t := if key == k && !c.killed then RolledTotals(c, k, now) else TotalsOf(c, k);
      && TotalsOf(o.ctl, k) == (if o.reply.ok && key == k then t.(1 := t.1 + 1) else t)
      && (o.reply.ok ==> !c.killed)
      && (o.reply.ok && key == k && !bypass && !p.shadow && p.maxKey > 0.0 ==> BelowTotalCap(p, t))
  {
    hide Projected, KeyLimit, Touch, Judge, Reserve, BelowTotalCap, RunLimit;
    if !c.killed {
      var c1 := Touch(c, run, key, now);
      var standing := StandingOf(p, c1, run, key, bypass);
      TouchKey(c, run, key, now, k);
      JudgeKey(p, c1, run, key, standing, now, k);
      ReserveKey(Judge(p, c1, run, key, standing, now), run, key, k);
      if key == k && standing == Clear && !bypass && p.maxKey > 0.0 {
        KeyLimitMeans(p, key, c1.keys[key]);
      }
    }
  }

  lemma RecordKeyEffect(p: Policy, c: Ctl, run: string, key: string, cost: real, loop: bool, now: nat, k: string)
    requires k != ""
    ensures
      var t := RolledTotals(c, k, now);
      TotalsOf(Core(p, c, Record(run, key, cost, loop), now).ctl, k)
      == if key == k then (t.0 + 1, Dec(t.1), t.2 + cost) else TotalsOf(c, k)
  {
    hide RecordRun, KeyTrips;
  }

  lemma OtherKey(p: Policy, c: Ctl, op: Op, now: nat, k: string)
    requires k != "" && !op.Admit? && !op.Record?
    ensures
      var t, t' := TotalsOf(c, k), TotalsOf(Core(p, c, op, now).ctl, k);
      match op
      case Release(run, key) => t' == if key == k then t.(1 := Dec(t.1)) else t
      case ResumeKey(key) =>
        t' == if key == k && KeyIsPaused(c, k) then if c.keys[k].dayPause then t.(1 := 0) else (0, 0, 0.0) else t
      case NoteKey(key) => t' == if key == k then RolledTotals(c, k, now) else t
      case _ => t' == t
  {
  }

  /** What a key's totals show: settled spend and a floor for each call in flight. */
  function Shown(f: real, t: (nat, nat, real)): real {
    t.2 + Copies(t.1, f)
  }

  /** What the bound forgives: a floor for each call forced through and each reservation wiped. */
  function Excused(f: real, l: Ledger): real {
    Copies(l.bypassed, f) + Copies(l.wiped, f)
  }

  ghost predicate TotalKept(p: Policy, t: (nat, nat, real), l: Ledger) {
    && 0.0 <= t.2 <= Copies(t.0, p.floor)
    && Within(p.floor, Rounded(p.maxKey), l.spent, l.out, Excused(p.floor, l), l.clearances, Shown(p.floor, t))
  }

  predicate KeyPolicy(p: Policy) {
    p.maxKey > 0.0 && p.floor >= 0.0 && !p.shadow
  }

  lemma UnderTotalCap(p: Policy, t: (nat, nat, real))
    requires KeyPolicy(p) && BelowTotalCap(p, t) && 0.0 <= t.2 <= Copies(t.0, p.floor)
    ensures Shown(p.floor, t) < Rounded(p.maxKey)
  {
    FloorIsReserved(p.floor, t.2, t.0, t.1);
    BelowCap(Shown(p.floor, t), p.maxKey);
  }

  /** Wiping n reservations on their own keeps the inequality: they are excused from then on. */
  lemma WipedKept(p: Policy, t: (nat, nat, real), l: Ledger, n: nat, l': Ledger)
    requires KeyPolicy(p) && TotalKept(p, t, l) && n <= t.1
    requires l' == l.(wiped := l.wiped + n, midnights := l'.midnights, resumes := l'.resumes)
    ensures TotalKept(p, t.(1 := t.1 - n), l')
  {
    CopiesAdd(l.wiped, n, p.floor);
    CopiesAdd(t.1 - n, n, p.floor);
    CopiesOrder(n, p.floor);
  }

  /** One more call: below the cap, or forced through. */
  lemma AdmittedKept(p: Policy, t: (nat, nat, real), l: Ledger)
    requires KeyPolicy(p) && TotalKept(p, t, l)
    ensures TotalKept(p, t.(1 := t.1 + 1), l.(admitted := l.admitted + 1, out := l.out + 1, bypassed := l.bypassed + 1))
    ensures BelowTotalCap(p, t) ==> TotalKept(p, t.(1 := t.1 + 1), l.(admitted := l.admitted + 1, out := l.out + 1))
  {
    hide BelowTotalCap;
    var f := p.floor;
    assert Copies(l.clearances + 1, Rounded(p.maxKey) + f) == Copies(l.clearances, Rounded(p.maxKey) + f) + Rounded(p.maxKey) + f;
    assert Copies(l.out + 1, f) == Copies(l.out, f) + f && Copies(l.bypassed + 1, f) == Copies(l.bypassed, f) + f;
    assert Shown(f, t.(1 := t.1 + 1)) == Shown(f, t) + f;
    if BelowTotalCap(p, t) {
      UnderTotalCap(p, t);
    }
  }

  /** One call settled at its cost frees at most its own reservation. */
  lemma SettledKept(p: Policy, t: (nat, nat, real), l: Ledger, cost: real)
    requires KeyPolicy(p) && TotalKept(p, t, l) && l.out > 0 && 0.0 <= cost <= p.floor
    ensures TotalKept(p, (t.0 + 1, Dec(t.1), t.2 + cost),
                      l.(recorded := l.recorded + 1, out := Dec(l.out), spent := l.spent + cost))
    ensures cost == 0.0 ==> TotalKept(p, t.(1 := Dec(t.1)), l.(out := Dec(l.out), released := l.released + 1))
  {
  }

  lemma ClearedKept(p: Policy, t: (nat, nat, real), l: Ledger, l': Ledger)
    requires KeyPolicy(p) && TotalKept(p, t, l)
    requires l' == l.(clearances := l.clearances + 1, resumes := l'.resumes)
    ensures TotalKept(p, (0, 0, 0.0), l')
  {
    MicroMonotone(0.0, p.maxKey);
  }

  lemma TotalOperated(p: Policy, k: string, w: World, op: Op, now: nat)
    requires k != "" && KeyPolicy(p) && WithinFloor(p, op)
    requires Settles(op, Key(k), w.ledger) && TotalKept(p, TotalsOf(w.ctl, k), w.ledger)
    ensures var w' := Operated(p, Key(k), w, op, now); TotalKept(p, TotalsOf(w'.ctl, k), w'.ledger)
  {
    hide AdmitCall, RecordKey, RecordRun, ReleaseCall, BelowTotalCap, TotalKept;
    var lost := LostAtMidnight(w.ctl, k, now);
    var t, l := TotalsOf(w.ctl, k), w.ledger;
    WipedKept(p, t, l, lost, Rolled(w.ctl, k, now, l));
    match op {
      case Admit(run, key, bypass) =>
        AdmitKey(p, w.ctl, run, key, bypass, now, k);
        AdmittedKept(p, RolledTotals(w.ctl, k, now), Rolled(w.ctl, k, now, l));
      case Record(run, key, cost, loop) =>
        RecordKeyEffect(p, w.ctl, run, key, cost, loop, now, k);
        if key == k {
          SettledKept(p, RolledTotals(w.ctl, k, now), Rolled(w.ctl, k, now, l), cost);
        }
      case Release(run, key) =>
        OtherKey(p, w.ctl, op, now, k);
        if key == k {
          SettledKept(p, t, l, 0.0);
        }
      case ResumeKey(key) =>
        OtherKey(p, w.ctl, op, now, k);
        WipedKept(p, t, l, t.1, l.(resumes := l.resumes + 1, wiped := l.wiped + t.1));
        ClearedKept(p, t, l, l.(resumes := l.resumes + 1, clearances := l.clearances + 1));
      case _ => OtherKey(p, w.ctl, op, now, k);
    }
  }

  lemma TotalDropped(p: Policy, k: string, w: World, e: Event)
    requires KeyPolicy(p) && TotalKept(p, TotalsOf(w.ctl, k), w.ledger)
    ensures var w' := Dropped(w, Key(k), e); TotalKept(p, TotalsOf(w'.ctl, k), w'.ledger)
  {
    ClearedKept(p, TotalsOf(w.ctl, k), w.ledger, w.ledger.(clearances := w.ledger.clearances + 1));
  }

  lemma {:induction false} TotalPlay(p: Policy, k: string, w: World, es: seq<Event>)
    requires k != "" && KeyPolicy(p) && (forall e <- es :: WithinFloor(p, e.op))
    requires Possible(p, Key(k), w, es) && TotalKept(p, TotalsOf(w.ctl, k), w.ledger)
    ensures var end := Play(p, Key(k), w, es); TotalKept(p, TotalsOf(end.ctl, k), end.ledger)
    decreases |es|
  {
    hide Core, TotalKept;
    if es != [] {
      TotalOperated(p, k, w, es[0].op, es[0].now);
      TotalDropped(p, k, Operated(p, Key(k), w, es[0].op, es[0].now), es[0]);
      TotalPlay(p, k, Next(p, Key(k), w, es[0]), es[1..]);
    }
  }

  lemma TotalFresh(p: Policy, k: string, w: World)
    requires KeyPolicy(p) && Untouched(k, w)
    ensures TotalKept(p, TotalsOf(w.ctl, k), w.ledger)
  {
    MicroMonotone(0.0, p.maxKey);
  }

  lemma TotalBounds(p: Policy, t: (nat, nat, real), l: Ledger)
    requires TotalKept(p, t, l)
    ensures Under(l.spent + Copies(l.out, p.floor),
                  Copies(l.clearances + 1, Rounded(p.maxKey) + p.floor) + Excused(p.floor, l), Rounded(p.maxKey) > 0.0)
  {
  }

  /**
    The total-cap bound of a key, across midnights: if no call costs more than the floor it is
    reserved at, every dollar ever recorded for the key, with a floor for each call still out,
    stays below one total cap and one floor, the same again for each total-cap resume or
    eviction, and a floor for each call forced through and each reservation that midnight or
    the resume of a daily pause wiped. It holds whatever runs the key starts and however the
    clock lags.
   */
  lemma {:induction false} KeyTotalBound(p: Policy, k: string, w: World, es: seq<Event>, end: World)
    requires k != "" && KeyPolicy(p) && (forall e <- es :: WithinFloor(p, e.op))
    requires Untouched(k, w) && Possible(p, Key(k), w, es) && end == Play(p, Key(k), w, es)
    ensures Under(end.ledger.spent + Copies(end.ledger.out, p.floor),
                  Copies(end.ledger.clearances + 1, Rounded(p.maxKey) + p.floor) + Excused(p.floor, end.ledger),
                  Rounded(p.maxKey) > 0.0)
  {
    hide *;
    TotalFresh(p, k, w);
    TotalPlay(p, k, w, es);
    TotalBounds(p, TotalsOf(end.ctl, k), end.ledger);
  }
}

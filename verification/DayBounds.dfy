/**
  What an API key can spend on one UTC day before its daily cap stops it. Midnight wipes the
  key's daily tally and its reservations together, so calls reserved on one day may be recorded
  on another: the bound counts them on their own.
 */
module DayBounds {
  import opened Money
  import opened Control
  import opened Histories

  /** A key's tallies, as its daily cap looks at them. */
  datatype Tallies = Tallies(
    tracked: bool, day: nat, daySpend: real, lifeCalls: nat, lifeSpend: real, inflight: nat)

  function TalliesOf(c: Ctl, k: string): Tallies {
    if k in c.keys then
      var ks := c.keys[k];
      Tallies(true, ks.day, ks.daySpend, ks.lifeCalls, ks.lifeSpend, ks.inflight)
    else Tallies(false, 0, 0.0, 0, 0.0, 0)
  }

  /** The tallies once the day has been looked at. */
  function Looked(t: Tallies, now: nat): Tallies {
    if !t.tracked then Tallies(true, DayOf(now), 0.0, 0, 0.0, 0)
    else if DayOf(now) <= t.day then t
    else t.(day := DayOf(now), daySpend := 0.0, inflight := 0)
  }

  /**
    A key's history on its day: the dollars recorded since the day began; the times its tally was
    wiped meanwhile (by an effective resume, or an eviction); the calls out whose reservations are
    gone, those out when the day began and those such a wipe took; and the calls forced through.
   */
  datatype Book = Book(day: nat, spent: real, cleared: nat, lost: nat, forced: nat)

  const NEW_BOOK := Book(0, 0.0, 0, 0, 0)

  function BookLooked(t: Tallies, now: nat, out: nat, b: Book): Book {
    var day := Looked(t, now).day;
    if day == b.day then b else Book(day, 0.0, 0, out, 0)
  }

  /** What one operation adds to the book of key k. */
  function Booked(p: Policy, w: World, op: Op, now: nat, k: string, b: Book): Book {
    var c, t := w.ctl, TalliesOf(w.ctl, k);
    var looked := BookLooked(t, now, w.ledger.out, b);
    match op
    case Admit(_, key, bypass) =>
      if key != k || c.killed then b
      else if bypass && Core(p, c, op, now).reply.ok then looked.(forced := looked.forced + 1)
      else looked
    case Record(_, key, cost, _) => if key == k then looked.(spent := looked.spent + cost) else b
    case NoteKey(key) => if key == k then looked else b
    case ResumeKey(key) =>
      if key == k && KeyIsPaused(c, k) then b.(cleared := b.cleared + 1, lost := b.lost + t.inflight) else b
    case _ => b
  }

  datatype Days = Days(w: World, book: Book)

  /** One event, for the key's history and for its book. */
  function NextDays(p: Policy, k: string, d: Days, e: Event): Days {
    var w1 := Operated(p, Key(k), d.w, e.op, e.now);
    var b1 := Booked(p, d.w, e.op, e.now, k, d.book);
    Days(Dropped(w1, Key(k), e),
         if k in e.keyVictims then b1.(cleared := b1.cleared + 1, lost := b1.lost + TalliesOf(w1.ctl, k).inflight)
         else b1)
  }

  function PlayDays(p: Policy, k: string, d: Days, es: seq<Event>): Days
    decreases |es|
  {
    if es == [] then d else PlayDays(p, k, NextDays(p, k, d, es[0]), es[1..])
  }

  // What an operation does to the tallies.

  lemma TouchDay(c: Ctl, run: string, key: string, now: nat, k: string)
    requires k != ""
    ensures TalliesOf(Touch(c, run, key, now), k) == if k == key then Looked(TalliesOf(c, k), now) else TalliesOf(c, k)
  {
  }

  lemma JudgeDay(p: Policy, c: Ctl, run: string, key: string, standing: Standing, now: nat, k: string)
    requires key != "" ==> key in c.keys
    requires standing == KeyAtCap ==> key != ""
    ensures TalliesOf(Judge(p, c, run, key, standing, now), k) == TalliesOf(c, k)
  {
  }

  lemma ReserveDay(c: Ctl, run: string, key: string, k: string)
    requires k != "" && (key != "" ==> key in c.keys)
    ensures var t := TalliesOf(c, k); TalliesOf(Reserve(c, run, key), k) == if k == key then t.(inflight := t.inflight + 1) else t
  {
  }

  /** What the day's cap is compared with is below it. */
  ghost predicate BelowDayCap(p: Policy, t: Tallies) {
    Micro(t.daySpend + Reserved(p.floor, t.lifeSpend, t.lifeCalls, t.inflight)) < Micro(p.maxKeyDay)
  }

  lemma DayLimitMeans(p: Policy, c: Ctl, key: string)
    requires p.maxKeyDay > 0.0 && key in c.keys && KeyLimit(p, key, c.keys[key]) == NoReason
    ensures BelowDayCap(p, TalliesOf(c, key))
  {
  }

  lemma AdmitDay(p: Policy, c: Ctl, run: string, key: string, bypass: bool, now: nat, k: string)
    requires k != "" && p.maxKeyDay > 0.0
    ensures
      var o := Core(p, c, Op.Admit(run, key, bypass), now);
      var t := if key == k && !c.killed then Looked(TalliesOf(c, k), now) else TalliesOf(c, k);
      && TalliesOf(o.ctl, k) == (if o.reply.ok && key == k then t.(inflight := t.inflight + 1) else t)
      && (o.reply.ok ==> !c.killed)
      && (o.reply.ok && key == k && !bypass && !p.shadow ==> BelowDayCap(p, t))
  {
    hide Reserved, KeyLimit, Touch, Judge, Reserve, BelowDayCap, RunLimit, Looked;
    if !c.killed {
      var c1 := Touch(c, run, key, now);
      var standing := StandingOf(p, c1, run, key, bypass);
      TouchDay(c, run, key, now, k);
      JudgeDay(p, c1, run, key, standing, now, k);
      ReserveDay(Judge(p, c1, run, key, standing, now), run, key, k);
      if key == k && standing == Clear && !bypass {
        DayLimitMeans(p, c1, key);
      }
    }
  }

  function Charged(t: Tallies, cost: real): Tallies {
    t.(inflight := Dec(t.inflight), daySpend := t.daySpend + cost, lifeCalls := t.lifeCalls + 1, lifeSpend := t.lifeSpend + cost)
  }

  lemma RecordDay(p: Policy, c: Ctl, run: string, key: string, cost: real, loop: bool, now: nat, k: string)
    requires k != ""
    ensures TalliesOf(Core(p, c, Record(run, key, cost, loop), now).ctl, k)
         == if key == k then Charged(Looked(TalliesOf(c, k), now), cost) else TalliesOf(c, k)
  {
    hide RecordRun, KeyTrips;
  }

  lemma OtherDay(p: Policy, c: Ctl, op: Op, now: nat, k: string)
    requires k != "" && !op.Admit? && !op.Record?
    ensures
      var t, t' := TalliesOf(c, k), TalliesOf(Core(p, c, op, now).ctl, k);
      match op
      case Release(_, key) => t' == if key == k then t.(inflight := Dec(t.inflight)) else t
      case ResumeKey(key) =>
        if key == k && KeyIsPaused(c, k) then
          || t' == t.(daySpend := 0.0, inflight := 0)
          || t' == t.(daySpend := 0.0, inflight := 0, lifeCalls := 0, lifeSpend := 0.0)
        else t' == t
      case NoteKey(key) => t' == if key == k then Looked(t, now) else t
      case _ => t' == t
  {
  }

  // The invariant.

  predicate DayPolicy(p: Policy) {
    p.maxKeyDay > 0.0 && p.floor >= 0.0 && !p.shadow
  }

  function Shown(f: real, t: Tallies): real {
    t.daySpend + Copies(t.inflight, f)
  }

  /** A floor for each call forced through and each whose reservation is gone. */
  function Excused(f: real, b: Book): real {
    Copies(b.forced, f) + Copies(b.lost, f)
  }

  ghost predicate DayKept(p: Policy, t: Tallies, out: nat, b: Book) {
    && 0.0 <= t.lifeSpend <= Copies(t.lifeCalls, p.floor)
    && (if t.tracked then t.day == b.day else t == Tallies(false, 0, 0.0, 0, 0.0, 0))
    && out <= t.inflight + b.lost
    && Within(p.floor, Rounded(p.maxKeyDay), b.spent, out, Excused(p.floor, b), b.cleared, Shown(p.floor, t))
  }

  /** Midnight: nothing is reserved any more, and every call still out is excused. */
  lemma MidnightKept(p: Policy, t: Tallies, out: nat, b: Book, now: nat)
    requires DayPolicy(p) && DayKept(p, t, out, b)
    ensures DayKept(p, Looked(t, now), out, BookLooked(t, now, out, b))
  {
    var f := p.floor;
    if Looked(t, now).day != b.day {
      CopiesOrder(out, f);
      MicroMonotone(0.0, p.maxKeyDay);
      NothingShown(f, Rounded(p.maxKeyDay), out, Excused(f, BookLooked(t, now, out, b)));
    }
  }

  lemma NothingShown(f: real, cap: real, out: nat, excused: real)
    requires f >= 0.0 && cap >= 0.0 && Copies(out, f) <= excused
    ensures Within(f, cap, 0.0, out, excused, 0, 0.0 + Copies(0, f))
  {
    assert Copies(1, cap + f) == Copies(0, cap + f) + (cap + f);
  }

  lemma UnderDayCap(p: Policy, t: Tallies)
    requires DayPolicy(p) && BelowDayCap(p, t) && 0.0 <= t.lifeSpend <= Copies(t.lifeCalls, p.floor)
    ensures Shown(p.floor, t) < Rounded(p.maxKeyDay)
  {
    FloorIsReserved(p.floor, t.lifeSpend, t.lifeCalls, t.inflight);
    BelowCap(Shown(p.floor, t), p.maxKeyDay);
  }

  /** One more call: below the day's cap, or forced through. */
  lemma AdmittedKept(p: Policy, t: Tallies, out: nat, b: Book)
    requires DayPolicy(p) && t.tracked && DayKept(p, t, out, b)
    ensures DayKept(p, t.(inflight := t.inflight + 1), out + 1, b.(forced := b.forced + 1))
    ensures BelowDayCap(p, t) ==> DayKept(p, t.(inflight := t.inflight + 1), out + 1, b)
  {
    hide BelowDayCap;
    var f, cap := p.floor, Rounded(p.maxKeyDay);
    assert Copies(b.cleared + 1, cap + f) == Copies(b.cleared, cap + f) + cap + f;
    assert Copies(out + 1, f) == Copies(out, f) + f && Copies(b.forced + 1, f) == Copies(b.forced, f) + f;
    assert Shown(f, t.(inflight := t.inflight + 1)) == Shown(f, t) + f;
    if BelowDayCap(p, t) {
      UnderDayCap(p, t);
    }
  }

  /** One call settled frees at most its own reservation. */
  lemma SettledKept(p: Policy, t: Tallies, out: nat, b: Book, cost: real)
    requires DayPolicy(p) && out > 0 && 0.0 <= cost <= p.floor && DayKept(p, t, out, b)
    ensures t.tracked ==> DayKept(p, Charged(t, cost), Dec(out), b.(spent := b.spent + cost))
    ensures DayKept(p, t.(inflight := Dec(t.inflight)), Dec(out), b)
  {
    var f := p.floor;
    assert Copies(out, f) == Copies(out - 1, f) + f;
    assert Copies(t.lifeCalls + 1, f) == Copies(t.lifeCalls, f) + f;
    if t.inflight > 0 {
      assert Copies(t.inflight, f) == Copies(t.inflight - 1, f) + f;
    }
  }

  /** A resume or an eviction wipes the tally, and one more allowance covers what it showed. */
  lemma ClearedKept(p: Policy, t: Tallies, out: nat, b: Book, t': Tallies)
    requires DayPolicy(p) && DayKept(p, t, out, b)
    requires || t' == t.(daySpend := 0.0, inflight := 0)
             || t' == t.(daySpend := 0.0, inflight := 0, lifeCalls := 0, lifeSpend := 0.0)
             || t' == Tallies(false, 0, 0.0, 0, 0.0, 0)
    ensures DayKept(p, t', out, b.(cleared := b.cleared + 1, lost := b.lost + t.inflight))
  {
    var f, cap := p.floor, Rounded(p.maxKeyDay);
    MicroMonotone(0.0, p.maxKeyDay);
    CopiesAdd(b.lost, t.inflight, f);
    CopiesOrder(t.inflight, f);
    assert Copies(b.cleared + 2, cap + f) == Copies(b.cleared + 1, cap + f) + (cap + f);
  }

  // Whole traces.

  ghost predicate Kept(p: Policy, k: string, d: Days) {
    DayKept(p, TalliesOf(d.w.ctl, k), d.w.ledger.out, d.book)
  }

  lemma OperatedKept(p: Policy, k: string, d: Days, op: Op, now: nat)
    requires k != "" && DayPolicy(p) && WithinFloor(p, op)
    requires Settles(op, Key(k), d.w.ledger) && Kept(p, k, d)
    ensures Kept(p, k, Days(Operated(p, Key(k), d.w, op, now), Booked(p, d.w, op, now, k, d.book)))
  {
    hide Core, BelowDayCap, DayKept, Looked, BookLooked;
    var t, l, b := TalliesOf(d.w.ctl, k), d.w.ledger, d.book;
    var t1, b1 := Looked(t, now), BookLooked(t, now, l.out, b);
    MidnightKept(p, t, l.out, b, now);
    assert t1.tracked by { LookingTracks(t, now); }
    match op {
      case Admit(run, key, bypass) =>
        AdmitDay(p, d.w.ctl, run, key, bypass, now, k);
        AdmittedKept(p, t1, l.out, b1);
      case Record(run, key, cost, loop) =>
        RecordDay(p, d.w.ctl, run, key, cost, loop, now, k);
        if key == k {
          SettledKept(p, t1, l.out, b1, cost);
        }
      case Release(run, key) =>
        OtherDay(p, d.w.ctl, op, now, k);
        if key == k {
          SettledKept(p, t, l.out, b, 0.0);
        }
      case ResumeKey(key) =>
        OtherDay(p, d.w.ctl, op, now, k);
        if key == k && KeyIsPaused(d.w.ctl, k) {
          ClearedKept(p, t, l.out, b, TalliesOf(Core(p, d.w.ctl, op, now).ctl, k));
        }
      case _ => OtherDay(p, d.w.ctl, op, now, k);
    }
  }

  lemma LookingTracks(t: Tallies, now: nat)
    ensures Looked(t, now).tracked
  {
  }

  lemma DroppedKept(p: Policy, k: string, d: Days, e: Event)
    requires DayPolicy(p) && Kept(p, k, d)
    ensures
      var b := if k in e.keyVictims then
                 d.book.(cleared := d.book.cleared + 1, lost := d.book.lost + TalliesOf(d.w.ctl, k).inflight)
               else d.book;
      Kept(p, k, Days(Dropped(d.w, Key(k), e), b))
  {
    hide DayKept;
    var t := TalliesOf(d.w.ctl, k);
    ClearedKept(p, t, d.w.ledger.out, d.book, Tallies(false, 0, 0.0, 0, 0.0, 0));
  }

  lemma {:induction false} DaysKept(p: Policy, k: string, d: Days, es: seq<Event>)
    requires k != "" && DayPolicy(p) && (forall e <- es :: WithinFloor(p, e.op))
    requires Possible(p, Key(k), d.w, es) && Kept(p, k, d)
    ensures Kept(p, k, PlayDays(p, k, d, es))
    ensures PlayDays(p, k, d, es).w == Play(p, Key(k), d.w, es)
    decreases |es|
  {
    hide Core, Kept, Operated, Booked, Dropped, Legal, Settles, DayPolicy;
    if es != [] {
      var e := es[0];
      OperatedKept(p, k, d, e.op, e.now);
      DroppedKept(p, k, Days(Operated(p, Key(k), d.w, e.op, e.now), Booked(p, d.w, e.op, e.now, k, d.book)), e);
      DaysKept(p, k, NextDays(p, k, d, e), es[1..]);
    }
  }

  lemma EmptyKept(p: Policy, k: string)
    requires DayPolicy(p)
    ensures Kept(p, k, Days(World(EMPTY, NEW_LEDGER), NEW_BOOK))
  {
    MicroMonotone(0.0, p.maxKeyDay);
    NothingShown(p.floor, Rounded(p.maxKeyDay), 0, 0.0);
  }

  lemma KeptBounds(p: Policy, k: string, d: Days)
    requires Kept(p, k, d)
    ensures k in d.w.ctl.keys ==> d.w.ctl.keys[k].day == d.book.day
    ensures Under(d.book.spent + Copies(d.w.ledger.out, p.floor),
                  Copies(d.book.cleared + 1, Rounded(p.maxKeyDay) + p.floor) + Excused(p.floor, d.book),
                  Rounded(p.maxKeyDay) > 0.0)
  {
  }

  /**
    The daily bound of a key: if no call costs more than the floor it is reserved at, what has been
    recorded for the key on its day, with a floor for each call still out, stays below one
    daily cap and one floor, the same again for each time that day's tally was wiped by a resume or an
    eviction, and a floor for each call that was out when the day began, lost its reservation to such a
    wipe since, or was forced through since. It holds on every day, for any clock and whatever runs
    the key starts, and no busy day before loosens it.
   */
  lemma {:induction false} KeyDayBound(p: Policy, k: string, es: seq<Event>, end: Days)
    requires k != "" && DayPolicy(p) && (forall e <- es :: WithinFloor(p, e.op))
    requires Possible(p, Key(k), World(EMPTY, NEW_LEDGER), es)
    requires end == PlayDays(p, k, Days(World(EMPTY, NEW_LEDGER), NEW_BOOK), es)
    ensures k in end.w.ctl.keys ==> end.w.ctl.keys[k].day == end.book.day
    ensures Under(end.book.spent + Copies(end.w.ledger.out, p.floor),
                  Copies(end.book.cleared + 1, Rounded(p.maxKeyDay) + p.floor)
                  + Excused(p.floor, end.book),
                  Rounded(p.maxKeyDay) > 0.0)
  {
    hide *;
    EmptyKept(p, k);
    DaysKept(p, k, Days(World(EMPTY, NEW_LEDGER), NEW_BOOK), es);
    KeptBounds(p, k, end);
  }
}

/**
  What an admission is answered and when a settlement stops a run or a key, in arithmetic that
  does without averages: dollars times calls on both sides. In memory dollars are compared to the
  nearest micro-dollar, in the store as they are. Nothing is assumed of what calls cost.
 */
module Ceilings {
  import opened Money
  import opened Control
  import Store

  /** The nearest whole micro-dollar, halves away from zero. */
  lemma MicroIsNearest(v: real)
    ensures v >= 0.0 ==> Micro(v) as real <= v + 0.5 < Micro(v) as real + 1.0
    ensures Micro(-v) == -Micro(v)
  {
  }

  /** v comes up to a cap, to the nearest micro-dollar. */
  predicate Meets(v: real, cap: real) {
    Micro(v) >= Micro(cap)
  }

  /**
    Settled spend comes up to a cap once the calls out are counted, each at the floor or at what
    `calls` settled calls have cost on average, `total` in all: whichever is more.
   */
  predicate Reaches(floor: real, spend: real, total: real, calls: nat, out: nat, cap: real) {
    || Meets(spend + floor * out as real, cap)
    || (calls > 0 && Meets((spend * calls as real + total * out as real) / calls as real, cap))
  }

  /** In products, for dollars that are not negative: twice the dollars, to the half micro-dollar. */
  lemma MeetsInProducts(dollars: real, calls: nat, cap: real)
    requires calls > 0 && dollars >= 0.0
    ensures Meets(dollars / calls as real, cap) <==> 2.0 * dollars >= (2 * Micro(cap) - 1) as real * calls as real
  {
    Quotient(dollars, calls);
    NearestMeets(dollars / calls as real, Micro(cap));
    TwiceTimes(dollars / calls as real, calls as real, dollars, (2 * Micro(cap) - 1) as real);
  }

  lemma TwiceTimes(v: real, n: real, dollars: real, bar: real)
    requires n > 0.0 && v * n == dollars
    ensures 2.0 * v >= bar <==> 2.0 * dollars >= bar * n
  {
    assert 2.0 * v * n == 2.0 * dollars;
    TimesOrder(2.0 * v, bar, n);
  }

  lemma Quotient(dollars: real, calls: nat)
    requires calls > 0 && dollars >= 0.0
    ensures dollars / calls as real * calls as real == dollars && dollars / calls as real >= 0.0
  {
  }

  lemma NearestMeets(v: real, n: int)
    requires v >= 0.0
    ensures Micro(v) >= n <==> 2.0 * v >= (2 * n - 1) as real
  {
    MicroIsNearest(v);
    hide Micro;
  }

  lemma TimesOrder(a: real, b: real, n: real)
    requires n > 0.0
    ensures a >= b <==> a * n >= b * n
  {
  }

  lemma AverageOut(spend: real, total: real, calls: nat, out: nat)
    requires calls > 0
    ensures (spend * calls as real + total * out as real) / calls as real == spend + total / calls as real * out as real
  {
    var n, o := calls as real, out as real;
    var a := total / n;
    assert total == a * n;
    assert (spend + a * o) * n == spend * n + total * o;
  }

  lemma MoreEach(a: real, b: real, out: nat)
    requires a <= b
    ensures a * out as real <= b * out as real
  {
  }

  lemma DearerMeets(spend: real, dearer: real, a: real, b: real, cap: real)
    requires (dearer == a && b <= a) || (dearer == b && a <= b)
    ensures Meets(spend + dearer, cap) <==> Meets(spend + a, cap) || Meets(spend + b, cap)
  {
    MicroMonotone(spend + a, spend + dearer);
    MicroMonotone(spend + b, spend + dearer);
  }

  /** What calls out are reserved at together: at the floor each or at the average each, whichever is dearer. */
  lemma ReservedIsDearer(floor: real, total: real, calls: nat, out: nat)
    ensures calls == 0 ==> Reserved(floor, total, calls, out) == floor * out as real
    ensures calls > 0 ==>
              var r, a, b := Reserved(floor, total, calls, out), floor * out as real, total / calls as real * out as real;
              (r == a && b <= a) || (r == b && a <= b)
  {
    if calls > 0 {
      var avg := total / calls as real;
      if avg > floor {
        MoreEach(floor, avg, out);
      } else {
        MoreEach(avg, floor, out);
      }
    }
  }

  lemma ReservedReaches(floor: real, spend: real, total: real, calls: nat, out: nat, cap: real)
    ensures Meets(spend + Reserved(floor, total, calls, out), cap) <==> Reaches(floor, spend, total, calls, out, cap)
  {
    ReservedIsDearer(floor, total, calls, out);
    hide Meets, Reserved;
    if calls > 0 {
      AverageOut(spend, total, calls, out);
      DearerMeets(spend, Reserved(floor, total, calls, out), floor * out as real, total / calls as real * out as real, cap);
    }
  }

  // In memory.

  /** Either cap that is set, the policy's or the run's own, is met. */
  predicate EitherCap(p: Policy, st: RunState, met: real -> bool) {
    (p.maxSpend > 0.0 && met(p.maxSpend)) || (p.maxSpend >= 0.0 && st.cap > 0.0 && met(st.cap))
  }

  function LowerCap(p: Policy, st: RunState): real {
    if p.maxSpend > 0.0 && !(0.0 < st.cap < p.maxSpend) then p.maxSpend else st.cap
  }

  function RunReaches(p: Policy, st: RunState): real -> bool {
    cap => Reaches(p.floor, st.spend, st.spend, st.calls, st.inflight, cap)
  }

  /** Why a call of a run and a key as they now stand is not to be served, if it is not. */
  function Objection(p: Policy, run: string, st: RunState, key: string, ks: KeyState): (bool, Reason) {
    if run != "" && st.paused then (true, st.reason)
    else if key != "" && ks.paused then (true, ks.reason)
    else if key != "" && p.maxKey > 0.0 && Reaches(p.floor, ks.lifeSpend, ks.lifeSpend, ks.lifeCalls, ks.inflight, p.maxKey) then
      (true, KeyCap(key, p.maxKey))
    else if key != "" && p.maxKeyDay > 0.0
            && Reaches(p.floor, ks.daySpend, ks.lifeSpend, ks.lifeCalls, ks.inflight, p.maxKeyDay) then
      (true, KeyDayCap(key, p.maxKeyDay))
    else if run != "" && p.maxCalls > 0 && st.calls + st.inflight >= p.maxCalls then (true, CallCap(p.maxCalls))
    else if run != "" && EitherCap(p, st, RunReaches(p, st)) then (true, SpendCap(LowerCap(p, st)))
    else (false, NoReason)
  }

  lemma LowerCapDecides(p: Policy, st: RunState)
    ensures (SpendCapOf(p, st) > 0.0 && RunReaches(p, st)(SpendCapOf(p, st))) <==> EitherCap(p, st, RunReaches(p, st))
    ensures SpendCapOf(p, st) > 0.0 ==> SpendCapOf(p, st) == LowerCap(p, st)
  {
    if p.maxSpend > 0.0 && st.cap > 0.0 {
      if st.cap < p.maxSpend {
        MicroMonotone(st.cap, p.maxSpend);
      } else {
        MicroMonotone(p.maxSpend, st.cap);
      }
    }
  }

  lemma RunLimitMeans(p: Policy, st: RunState)
    ensures RunLimit(p, st)
         == if p.maxCalls > 0 && st.calls + st.inflight >= p.maxCalls then CallCap(p.maxCalls)
            else if EitherCap(p, st, RunReaches(p, st)) then SpendCap(LowerCap(p, st)) else NoReason
  {
    var cap := SpendCapOf(p, st);
    LowerCapDecides(p, st);
    ReservedReaches(p.floor, st.spend, st.spend, st.calls, st.inflight, cap);
    hide Reaches, SpendCapOf, LowerCap, EitherCap, Reserved;
  }

  lemma KeyLimitMeans(p: Policy, key: string, ks: KeyState)
    ensures KeyLimit(p, key, ks)
         == if p.maxKey > 0.0 && Reaches(p.floor, ks.lifeSpend, ks.lifeSpend, ks.lifeCalls, ks.inflight, p.maxKey) then
              KeyCap(key, p.maxKey)
            else if p.maxKeyDay > 0.0 && Reaches(p.floor, ks.daySpend, ks.lifeSpend, ks.lifeCalls, ks.inflight, p.maxKeyDay) then
              KeyDayCap(key, p.maxKeyDay)
            else NoReason
  {
    ReservedReaches(p.floor, ks.lifeSpend, ks.lifeSpend, ks.lifeCalls, ks.inflight, p.maxKey);
    ReservedReaches(p.floor, ks.daySpend, ks.lifeSpend, ks.lifeCalls, ks.inflight, p.maxKeyDay);
    hide Reaches, Reserved;
  }

  /** The stop event of a run, and of a key with the tallies of the cap that stopped it. */
  function RunStop(p: Policy, run: string, reason: Reason, calls: nat, spend: real, now: nat): StopEvent {
    StopEvent(run, "", reason, calls, spend, now, p.shadow, false)
  }

  function KeyStop(p: Policy, key: string, reason: Reason, ks: KeyState, now: nat): StopEvent {
    if reason.KeyDayCap? then StopEvent("", key, reason, ks.dayCalls, ks.daySpend, now, p.shadow, true)
    else StopEvent("", key, reason, ks.lifeCalls, ks.lifeSpend, now, p.shadow, false)
  }

  /** The stop an objection makes: none if the run or key was paused already. */
  function StopOf(p: Policy, run: string, st: RunState, key: string, ks: KeyState, now: nat): seq<StopEvent> {
    var (held, reason) := Objection(p, run, st, key, ks);
    if !held || (run != "" && st.paused) || (key != "" && ks.paused) then []
    else if reason.KeyCap? || reason.KeyDayCap? then [KeyStop(p, key, reason, ks, now)]
    else [RunStop(p, run, reason, st.calls, st.spend, now)]
  }

  /**
    Every admission is answered so: the kill switch refuses it; a bypass passes everything else; an
    objection refuses it, or in shadow mode goes with it; and a cap met then and there pauses and
    hands out one stop.
   */
  lemma AdmissionAnswered(p: Policy, c: Ctl, run: string, key: string, bypass: bool, now: nat)
    ensures
      var o := AdmitCall(p, c, run, key, bypass, now);
      var st, ks := RunOf(c, run), KeyAt(c, key, now);
      var (held, reason) := Objection(p, run, st, key, ks);
      && o.reply == (if c.killed then Reply(false, KillSwitch)
                     else if bypass || !held then Reply(true, NoReason)
                     else Reply(p.shadow, reason))
      && o.ctl.stops == c.stops + (if c.killed || bypass then [] else StopOf(p, run, st, key, ks, now))
  {
    hide Reaches, KeyAt, EitherCap, LowerCap, RunLimit, KeyLimit;
    RunLimitMeans(p, RunOf(c, run));
    KeyLimitMeans(p, key, KeyAt(c, key, now));
    if !c.killed {
      TouchedAs(c, run, key, now);
      SeenIsNoMatter(p, RunOf(c, run), now);
    }
  }

  lemma SeenIsNoMatter(p: Policy, st: RunState, now: nat)
    ensures RunLimit(p, st.(lastSeen := now)) == RunLimit(p, st)
  {
  }

  lemma TouchedAs(c: Ctl, run: string, key: string, now: nat)
    ensures
      var c1 := Touch(c, run, key, now);
      && (key != "" ==> c1.keys[key] == KeyAt(c, key, now))
      && (run != "" ==> RunOf(c1, run) == RunOf(c, run).(lastSeen := now))
  {
  }

  function RunSpent(st: RunState): real -> bool {
    cap => Meets(st.spend, cap)
  }

  /** Why a settled call stops its run, if it does: on settled tallies alone. */
  function RunTrip(p: Policy, st: RunState, loop: bool): (bool, Reason) {
    if p.maxCalls > 0 && st.calls >= p.maxCalls then (true, CallCap(p.maxCalls))
    else if EitherCap(p, st, RunSpent(st)) then (true, SpendCap(LowerCap(p, st)))
    else if loop && p.pauseOnLoop then (true, SuspectedLoop)
    else (false, NoReason)
  }

  function KeyTrip(p: Policy, key: string, ks: KeyState): (bool, Reason) {
    if p.maxKey > 0.0 && Meets(ks.lifeSpend, p.maxKey) then (true, KeyCap(key, p.maxKey))
    else if p.maxKeyDay > 0.0 && Meets(ks.daySpend, p.maxKeyDay) then (true, KeyDayCap(key, p.maxKeyDay))
    else (false, NoReason)
  }

  lemma RunTripsMeans(p: Policy, st: RunState, loop: bool)
    ensures var (trips, reason) := RunTrip(p, st, loop); RunTrips(p, st, loop) == reason && (trips <==> reason != NoReason)
  {
    LowerCapTrips(p, st);
    hide EitherCap, LowerCap, SpendCapOf;
  }

  lemma LowerCapTrips(p: Policy, st: RunState)
    ensures (SpendCapOf(p, st) > 0.0 && Meets(st.spend, SpendCapOf(p, st))) <==> EitherCap(p, st, RunSpent(st))
    ensures SpendCapOf(p, st) > 0.0 ==> SpendCapOf(p, st) == LowerCap(p, st)
  {
    if p.maxSpend > 0.0 && st.cap > 0.0 {
      if st.cap < p.maxSpend {
        MicroMonotone(st.cap, p.maxSpend);
      } else {
        MicroMonotone(p.maxSpend, st.cap);
      }
    }
  }

  function SettledRun(st: RunState, cost: real): RunState {
    st.(calls := st.calls + 1, spend := st.spend + cost)
  }

  function SettledKey(ks: KeyState, cost: real): KeyState {
    ks.(lifeCalls := ks.lifeCalls + 1, lifeSpend := ks.lifeSpend + cost,
        dayCalls := ks.dayCalls + 1, daySpend := ks.daySpend + cost)
  }

  lemma KeyStops(p: Policy, c: Ctl, key: string, cost: real, now: nat)
    ensures
      var ks := KeyAt(c, key, now);
      var (trips, why) := KeyTrip(p, key, SettledKey(ks, cost));
      RecordKey(p, c, key, cost, now).stops
      == c.stops + if !ks.paused && trips then [KeyStop(p, key, why, SettledKey(ks, cost), now)] else []
  {
    hide KeyAt, Micro;
  }

  lemma TripIgnores(p: Policy, st: RunState, loop: bool)
    ensures forall out: nat, seen: nat :: RunTrip(p, st.(inflight := out, lastSeen := seen), loop) == RunTrip(p, st, loop)
  {
  }

  lemma RunStops(p: Policy, c: Ctl, run: string, cost: real, loop: bool, now: nat)
    ensures
      var st := RunOf(c, run);
      var (trips, reason) := RunTrip(p, SettledRun(st, cost), loop);
      RecordRun(p, c, run, cost, loop, now).stops
      == c.stops + if !st.paused && trips then [RunStop(p, run, reason, st.calls + 1, st.spend + cost, now)] else []
  {
    hide RunTrip, RunTrips;
    var st1 := ChargedRun(RunOf(c, run), cost, now);
    RunTripsMeans(p, st1, loop);
    TripIgnores(p, SettledRun(RunOf(c, run), cost), loop);
    assert st1 == SettledRun(RunOf(c, run), cost).(inflight := st1.inflight, lastSeen := now);
  }

  /** Every settlement stops so: the key, then the run, each unless it was paused already. */
  lemma SettlementStops(p: Policy, c: Ctl, run: string, key: string, cost: real, loop: bool, now: nat)
    ensures
      var st, ks := SettledRun(RunOf(c, run), cost), SettledKey(KeyAt(c, key, now), cost);
      var (keyTrips, why) := KeyTrip(p, key, ks);
      var (runTrips, reason) := RunTrip(p, st, loop);
      Core(p, c, Record(run, key, cost, loop), now).ctl.stops
      == c.stops + (if key != "" && !ks.paused && keyTrips then [KeyStop(p, key, why, ks, now)] else [])
         + (if run != "" && !st.paused && runTrips then [RunStop(p, run, reason, st.calls, st.spend, now)] else [])
  {
    hide RecordKey, RecordRun, RunTrip, KeyTrip, KeyAt;
    var c1 := if key == "" then c else RecordKey(p, c, key, cost, now);
    KeyStops(p, c, key, cost, now);
    RunStops(p, c1, run, cost, loop, now);
  }

  /** The floor of each call out comes up to a cap; or a run's dollars times all its calls to the cap times those settled. */
  predicate ReachesTimes(floor: real, spend: real, calls: nat, out: nat, cap: real) {
    || Meets(spend + floor * out as real, cap)
    || (calls > 0 && 2.0 * (spend * (calls + out) as real) >= (2 * Micro(cap) - 1) as real * calls as real)
  }

  lemma ReachesInProducts(floor: real, spend: real, calls: nat, out: nat, cap: real)
    requires spend >= 0.0
    ensures Reaches(floor, spend, spend, calls, out, cap) <==> ReachesTimes(floor, spend, calls, out, cap)
  {
    if calls > 0 {
      var dollars := spend * calls as real + spend * out as real;
      assert dollars == spend * (calls + out) as real;
      assert dollars >= 0.0;
      hide Meets;
      MeetsInProducts(dollars, calls, cap);
    }
  }

  lemma RunObjection(p: Policy, c: Ctl, run: string, now: nat)
    requires run != "" && !c.killed && !p.shadow
    requires var st := RunOf(c, run); !st.paused && !(p.maxCalls > 0 && st.calls + st.inflight >= p.maxCalls)
    requires SpendCapOf(p, RunOf(c, run)) > 0.0
    ensures
      var st, cap := RunOf(c, run), SpendCapOf(p, RunOf(c, run));
      AdmitCall(p, c, run, "", false, now).reply == Reply(false, SpendCap(cap))
      <==> Reaches(p.floor, st.spend, st.spend, st.calls, st.inflight, cap)
  {
    var st := RunOf(c, run);
    AdmissionAnswered(p, c, run, "", false, now);
    LowerCapDecides(p, st);
    hide AdmitCall, EitherCap, LowerCap, SpendCapOf, Reaches, KeyAt;
  }

  /**
    The spend cap in products: a run that is not paused and below its call cap is refused at the
    cap it is held to exactly when its dollars and the floor of each call out come up to it, or its
    dollars times all its calls come up to the cap times those settled. A run with no call settled
    is held to the floor alone.
   */
  lemma RefusedInProducts(p: Policy, c: Ctl, run: string, now: nat)
    requires run != "" && !c.killed && !p.shadow && RunOf(c, run).spend >= 0.0
    requires var st := RunOf(c, run); !st.paused && !(p.maxCalls > 0 && st.calls + st.inflight >= p.maxCalls)
    requires SpendCapOf(p, RunOf(c, run)) > 0.0
    ensures
      var st, cap := RunOf(c, run), SpendCapOf(p, RunOf(c, run));
      AdmitCall(p, c, run, "", false, now).reply == Reply(false, SpendCap(cap))
      <==> ReachesTimes(p.floor, st.spend, st.calls, st.inflight, cap)
  {
    var st, cap := RunOf(c, run), SpendCapOf(p, RunOf(c, run));
    hide *;
    RunObjection(p, c, run, now);
    ReachesInProducts(p.floor, st.spend, st.calls, st.inflight, cap);
  }

  // In the store.

  /** The same in whole numbers, and without rounding. */
  predicate StoreReaches(floor: int, spend: int, total: int, calls: nat, out: nat, cap: int) {
    || spend + floor * out >= cap
    || (calls > 0 && spend * calls + total * out >= cap * calls)
  }

  /** spend + avg × out comes up to cap just as, times calls, the dollars do. */
  lemma AverageInProducts(spend: int, total: int, calls: nat, out: nat, cap: int)
    requires calls > 0
    ensures spend as real + total as real / calls as real * out as real >= cap as real
       <==> spend * calls + total * out >= cap * calls
  {
    var v := spend as real + total as real / calls as real * out as real;
    AverageOut(spend as real, total as real, calls, out);
    var dollars := spend * calls + total * out;
    assert dollars as real == spend as real * calls as real + total as real * out as real;
    assert v * calls as real == dollars as real;
    assert (cap * calls) as real == cap as real * calls as real;
    TimesOrder(v, cap as real, calls as real);
  }

  lemma StoreReservedReaches(floor: int, spend: int, total: int, calls: nat, out: nat, cap: int)
    ensures spend as real + Reserved(floor as real, total as real, calls, out) >= cap as real
       <==> StoreReaches(floor, spend, total, calls, out, cap)
  {
    ReservedIsDearer(floor as real, total as real, calls, out);
    hide Reserved;
    assert (floor * out) as real == floor as real * out as real;
    if calls > 0 {
      AverageInProducts(spend, total, calls, out, cap);
    }
  }

  predicate EitherStored(l: Store.Limits, h: Store.RunHash, met: int -> bool) {
    (l.cap > 0 && met(l.cap)) || (l.cap >= 0 && h.cap > 0 && met(h.cap))
  }

  function LowerStored(l: Store.Limits, h: Store.RunHash): int {
    if l.cap > 0 && !(0 < h.cap < l.cap) then l.cap else h.cap
  }

  function RunStoreReaches(l: Store.Limits, h: Store.RunHash): int -> bool {
    cap => StoreReaches(l.floor, h.spend, h.spend, h.calls, h.inflight, cap)
  }

  function StoreObjection(l: Store.Limits, run: string, h: Store.RunHash, key: string, k: Store.KeyHash): (bool, Store.Code) {
    if run != "" && h.paused then (true, h.reason)
    else if key != "" && k.paused then (true, k.reason)
    else if key != "" && l.klife > 0 && StoreReaches(l.floor, k.lspend, k.lspend, k.lcalls, k.inflight, l.klife) then
      (true, Store.KLife(l.klife))
    else if key != "" && l.kday > 0 && StoreReaches(l.floor, k.dspend, k.lspend, k.lcalls, k.inflight, l.kday) then
      (true, Store.KDay(l.kday))
    else if run != "" && l.maxCalls > 0 && h.calls + h.inflight >= l.maxCalls then (true, Store.Calls(l.maxCalls))
    else if run != "" && EitherStored(l, h, RunStoreReaches(l, h)) then (true, Store.Spend(LowerStored(l, h)))
    else (false, Store.NoCode)
  }

  lemma CapTimes(a: int, b: int, calls: nat)
    requires a <= b
    ensures a * calls <= b * calls
  {
  }

  lemma LowerStoredDecides(l: Store.Limits, h: Store.RunHash)
    ensures
      var cap := Store.CapOf(l, h);
      && (cap > 0 && RunStoreReaches(l, h)(cap) <==> EitherStored(l, h, RunStoreReaches(l, h)))
      && (cap > 0 ==> cap == LowerStored(l, h))
  {
    if h.cap < l.cap {
      CapTimes(h.cap, l.cap, h.calls);
    } else {
      CapTimes(l.cap, h.cap, h.calls);
    }
  }

  lemma RunCodeMeans(l: Store.Limits, h: Store.RunHash)
    ensures Store.RunCode(l, h)
         == if l.maxCalls > 0 && h.calls + h.inflight >= l.maxCalls then Store.Calls(l.maxCalls)
            else if EitherStored(l, h, RunStoreReaches(l, h)) then Store.Spend(LowerStored(l, h)) else Store.NoCode
  {
    LowerStoredDecides(l, h);
    StoreReservedReaches(l.floor, h.spend, h.spend, h.calls, h.inflight, Store.CapOf(l, h));
    hide StoreReaches, Store.CapOf, EitherStored, LowerStored, Reserved;
  }

  lemma KeyCodeMeans(l: Store.Limits, k: Store.KeyHash)
    ensures Store.KeyCode(l, k)
         == if l.klife > 0 && StoreReaches(l.floor, k.lspend, k.lspend, k.lcalls, k.inflight, l.klife) then Store.KLife(l.klife)
            else if l.kday > 0 && StoreReaches(l.floor, k.dspend, k.lspend, k.lcalls, k.inflight, l.kday) then
              Store.KDay(l.kday)
            else Store.NoCode
  {
    StoreReservedReaches(l.floor, k.lspend, k.lspend, k.lcalls, k.inflight, l.klife);
    StoreReservedReaches(l.floor, k.dspend, k.lspend, k.lcalls, k.inflight, l.kday);
    hide StoreReaches, Reserved;
  }

  /**
    Every admission of a new token is answered so by the script, in each of its modes, and one stopped
    then and there is marked; a token it has marked before is answered by its mark.
   */
  lemma StoreAnswered(l: Store.Limits, s: Store.State, run: string, key: string, mode: Store.Mode, today: nat, tok: Store.Token)
    requires (run != "" || key != "") && tok !in Store.TokensAt(s, run, key, tok).admits
    ensures
      var h, k := Store.HashOf(s, run), Store.RollHash(Store.KeyHashOf(s, key), today);
      var (held, code) := StoreObjection(l, run, h, key, k);
      var bypass, already := mode == Store.Bypassing, (run != "" && h.paused) || (key != "" && k.paused);
      Store.Admit(l, s, run, key, mode, today, tok).1
      == if s.killed then Store.Answer(false, Store.NoCode, false, true)
         else if bypass || !held then Store.Answer(true, Store.NoCode, false, false)
         else Store.Answer(mode == Store.Shadowing, code, !already, false)
  {
    hide StoreReaches, Store.RollHash, EitherStored, LowerStored, Store.RunCode, Store.KeyCode;
    RunCodeMeans(l, Store.HashOf(s, run));
    KeyCodeMeans(l, Store.RollHash(Store.KeyHashOf(s, key), today));
    RolledAs(s, run, key, today);
  }

  lemma RolledAs(s: Store.State, run: string, key: string, today: nat)
    ensures
      var s1 := Store.RollKey(s, key, today);
      && Store.HashOf(s1, run) == Store.HashOf(s, run)
      && (key != "" ==> Store.KeyHashOf(s1, key) == Store.RollHash(Store.KeyHashOf(s, key), today))
  {
  }
}

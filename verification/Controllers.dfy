/**
  The per-process budget controller, in place: the class that carries out the rules of
  Control, one operation at a time under its lock, with the stop events an operation queues
  handed out before it returns.
 */
module Controllers {
  import opened Money
  import opened Control

  function SeenAt(ages: map<string, Age>, id: string): nat {
    if id in ages then ages[id].lastSeen else 0
  }

  /** The id seen longest ago among `rest`. */
  method Oldest(ages: map<string, Age>, rest: set<string>) returns (id: string)
    requires rest != {} && rest <= ages.Keys
    ensures id in rest && forall other :: other in rest ==> SeenAt(ages, id) <= SeenAt(ages, other)
  {
    id :| id in rest;
    var left := rest - {id};
    while left != {}
      invariant left <= rest && id in rest
      invariant forall other :: other in rest - left ==> SeenAt(ages, id) <= SeenAt(ages, other)
      decreases left
    {
      var next :| next in left;
      if ages[next].lastSeen < ages[id].lastSeen {
        id := next;
      }
      left := left - {next};
    }
  }

  /** The active ids, least-recently-seen first. */
  method OldestFirst(ages: map<string, Age>) returns (order: seq<string>)
    ensures |order| == |Active(ages)| && forall id :: id in order <==> id in Active(ages)
    ensures forall i, j :: 0 <= i < j < |order| ==> order[i] != order[j]
    ensures forall i, j :: 0 <= i < j < |order| ==> SeenAt(ages, order[i]) <= SeenAt(ages, order[j])
  {
    order := [];
    var rest := Active(ages);
    while rest != {}
      invariant rest <= Active(ages) && |order| + |rest| == |Active(ages)|
      invariant forall id :: id in order <==> id in Active(ages) - rest
      invariant forall i, j :: 0 <= i < j < |order| ==> order[i] != order[j]
      invariant forall i, j :: 0 <= i < j < |order| ==> SeenAt(ages, order[i]) <= SeenAt(ages, order[j])
      invariant forall i, id :: 0 <= i < |order| && id in rest ==> SeenAt(ages, order[i]) <= SeenAt(ages, id)
      decreases rest
    {
      var id := Oldest(ages, rest);
      assert id !in order;
      ghost var before := order;
      order := order + [id];
      rest := rest - {id};
      assert forall i :: 0 <= i < |before| ==> order[i] == before[i];
      assert order[|before|] == id;
    }
  }

  /** What eviction drops from a map of these ages: the oldest active entries, as many as it takes. */
  method Overdue(ages: map<string, Age>, max: nat) returns (gone: set<string>)
    ensures LegalEviction(ages, max, gone)
  {
    gone := {};
    if |ages| <= max {
      return;
    }
    var order := OldestFirst(ages);
    var over := |ages| - max;
    var i := 0;
    while i < over && i < |order|
      invariant 0 <= i <= |order| && i <= over
      invariant forall id :: id in gone <==> id in order[..i]
      invariant |gone| == i
    {
      assert order[i] !in order[..i];
      gone := gone + {order[i]};
      i := i + 1;
    }
    assert forall x :: 0 <= x < i ==> order[..i][x] in gone;
    forall early, kept | early in gone && kept in Active(ages) - gone
      ensures SeenAt(ages, early) <= SeenAt(ages, kept)
    {
      var a :| 0 <= a < i && order[a] == early;
      var b :| 0 <= b < |order| && order[b] == kept;
    }
  }

  lemma NothingEvicted(c: Ctl)
    ensures Evict(c, {}, {}) == c
  {
    assert c.runs - {} == c.runs && c.keys - {} == c.keys;
  }

  /** Settling a call on its run neither reads nor changes a key. */
  lemma KeysDoNotMatter(p: Policy, c: Ctl, keys: map<string, KeyState>, run: string, cost: real, loop: bool, now: nat)
    ensures RecordRun(p, c.(keys := keys), run, cost, loop, now) == RecordRun(p, c, run, cost, loop, now).(keys := keys)
  {
    hide RunTrips;
  }

  class Controller {
    const policy: Policy
    var killed: bool
    var runs: map<string, RunState>
    var keys: map<string, KeyState>
    var pending: seq<StopEvent>
    var sent: seq<StopEvent>

    /** What the controller holds; an event queued is as good as sent. */
    ghost function State(): Ctl
      reads this
    {
      Ctl(killed, runs, keys, sent + pending)
    }

    constructor (p: Policy)
      ensures policy == p.(maxRuns := if p.maxRuns == 0 then 10000 else p.maxRuns)
      ensures State() == EMPTY && pending == []
    {
      policy := p.(maxRuns := if p.maxRuns == 0 then 10000 else p.maxRuns);
      killed, runs, keys, pending, sent := false, map[], map[], [], [];
    }

    method KeyLocked(key: string, now: nat) returns (ks: KeyState)
      modifies this`keys
      ensures State() == SetKey(old(State()), key, KeyAt(old(State()), key, now))
      ensures ks == keys[key]
    {
      var today := DayOf(now);
      if key !in keys {
        keys := keys[key := FreshKey(today)];
      }
      ks := keys[key];
      if today > ks.day {
        ks := ks.(day := today, dayCalls := 0, daySpend := 0.0, inflight := 0);
        if ks.dayPause {
          ks := ks.(paused := false, reason := NoReason, dayPause := false);
        }
      }
      ks := ks.(lastSeen := now);
      keys := keys[key := ks];
    }

    method PauseKeyLocked(key: string, reason: Reason, dayPause: bool, now: nat)
      requires key in keys && reason != NoReason && dayPause == reason.KeyDayCap?
      modifies this`keys, this`pending
      ensures State() == StopKey(policy, old(State()), key, reason, now)
    {
      var ks := keys[key];
      keys := keys[key := ks.(paused := true, reason := reason, dayPause := dayPause)];
      var calls, spend := ks.lifeCalls, ks.lifeSpend;
      if dayPause {
        calls, spend := ks.dayCalls, ks.daySpend;
      }
      pending := pending + [StopEvent("", key, reason, calls, spend, now, policy.shadow, dayPause)];
      assert sent + pending == old(sent + pending) + [StopEvent("", key, reason, calls, spend, now, policy.shadow, dayPause)];
    }

    /** What the calls in flight are reserved at: the average so far each, or the floor. */
    method ReservedFor(spend: real, calls: nat, inflight: nat) returns (reserved: real)
      ensures reserved == Reserved(policy.floor, spend, calls, inflight)
    {
      var per := policy.floor;
      if calls > 0 {
        var avg := spend / calls as real;
        if avg > per {
          per := avg;
        }
      }
      reserved := per * inflight as real;
    }

    method KeyCapLocked(key: string, now: nat) returns (reason: Reason)
      requires key in keys
      modifies this`keys, this`pending
      ensures reason == KeyLimit(policy, key, old(keys[key]))
      ensures State() == StopKey(policy, old(State()), key, reason, now)
    {
      hide Reserved, Micro;
      var ks := keys[key];
      var reserved := ReservedFor(ks.lifeSpend, ks.lifeCalls, ks.inflight);
      if policy.maxKey > 0.0 && Micro(ks.lifeSpend + reserved) >= Micro(policy.maxKey) {
        reason := KeyCap(key, policy.maxKey);
        PauseKeyLocked(key, reason, false, now);
      } else if policy.maxKeyDay > 0.0 && Micro(ks.daySpend + reserved) >= Micro(policy.maxKeyDay) {
        reason := KeyDayCap(key, policy.maxKeyDay);
        PauseKeyLocked(key, reason, true, now);
      } else {
        reason := NoReason;
      }
    }

    /** The lower of the two caps that are set, or zero for none. */
    method SpendCapLocked(st: RunState) returns (cap: real)
      ensures cap == SpendCapOf(policy, st)
    {
      cap := policy.maxSpend;
      if st.cap > 0.0 && (cap == 0.0 || st.cap < cap) {
        cap := st.cap;
      }
    }

    method RunCapLocked(run: string, now: nat) returns (reason: Reason)
      requires run in runs
      modifies this`runs, this`pending
      ensures reason == RunLimit(policy, old(runs[run]))
      ensures State() == StopRun(policy, old(State()), run, reason, now)
    {
      hide Reserved, Micro, SpendCapOf;
      var st := runs[run];
      var cap := SpendCapLocked(st);
      var reserved := ReservedFor(st.spend, st.calls, st.inflight);
      reason := NoReason;
      if policy.maxCalls > 0 && st.calls + st.inflight >= policy.maxCalls {
        reason := CallCap(policy.maxCalls);
        PauseLocked(run, reason, now);
      } else if cap > 0.0 && Micro(st.spend + reserved) >= Micro(cap) {
        reason := SpendCap(cap);
        PauseLocked(run, reason, now);
      }
    }

    method PauseLocked(run: string, reason: Reason, now: nat)
      requires run in runs && reason != NoReason
      modifies this`runs, this`pending
      ensures State() == StopRun(policy, old(State()), run, reason, now)
    {
      var st := runs[run];
      runs := runs[run := st.(paused := true, reason := reason)];
      pending := pending + [StopEvent(run, "", reason, st.calls, st.spend, now, policy.shadow, false)];
      assert sent + pending == old(sent + pending) + [StopEvent(run, "", reason, st.calls, st.spend, now, policy.shadow, false)];
    }

    method Dispatch()
      modifies this`pending, this`sent
      ensures State() == old(State()) && pending == []
    {
      sent, pending := sent + pending, [];
    }

    method EvictKeys() returns (ghost gone: set<string>)
      modifies this`keys
      ensures State() == Evict(old(State()), {}, gone)
      ensures LegalEviction(KeyAges(old(keys)), policy.maxRuns, gone)
    {
      var out := Overdue(KeyAges(keys), policy.maxRuns);
      keys := keys - out;
      gone := out;
      assert runs == runs - {};
    }

    method EvictRuns() returns (ghost gone: set<string>)
      modifies this`runs
      ensures State() == Evict(old(State()), gone, {})
      ensures LegalEviction(RunAges(old(runs)), policy.maxRuns, gone)
    {
      var out := Overdue(RunAges(runs), policy.maxRuns);
      runs := runs - out;
      gone := out;
      assert keys == keys - {};
    }

    method ReserveLocked(run: string, key: string) returns (ghost gone: set<string>)
      requires (key != "" ==> key in keys) && (run != "" ==> run in runs)
      modifies this`runs, this`keys
      ensures State() == Evict(Reserve(old(State()), run, key), {}, gone)
      ensures if key != "" then LegalEviction(KeyAges(Reserve(old(State()), run, key).keys), policy.maxRuns, gone) else gone == {}
    {
      gone := {};
      if run != "" {
        runs := runs[run := runs[run].(inflight := runs[run].inflight + 1)];
      }
      if key != "" {
        keys := keys[key := keys[key].(inflight := keys[key].inflight + 1)];
      }
      assert State() == Reserve(old(State()), run, key);
      assert runs == runs - {} && keys == keys - {};
      if key != "" {
        gone := EvictKeys();
      }
    }

    /** The run's pause first, then the key's, then the key's ceilings and the run's. */
    method DecideLocked(run: string, key: string, bypass: bool, now: nat)
      returns (ok: bool, reason: Reason, ghost gone: set<string>)
      requires (key != "" ==> key in keys) && (run != "" ==> run in runs)
      modifies this`runs, this`keys, this`pending
      ensures
        var o := Decide(policy, old(State()), run, key, bypass, now);
        && Reply(ok, reason) == o.reply && !o.boundRuns
        && State() == Evict(o.ctl, {}, gone)
        && if o.boundKeys then LegalEviction(KeyAges(o.ctl.keys), policy.maxRuns, gone) else gone == {}
    {
      hide KeyLimit, Projected, SpendCapOf, LegalEviction, StopRun, StopKey, Reserve, KeyAges;
      gone := {};
      NothingEvicted(State());
      var shadow := policy.shadow && !bypass;
      if run != "" && runs[run].paused {
        reason := if bypass then NoReason else runs[run].reason;
        ok := bypass || shadow;
        if ok {
          gone := ReserveLocked(run, key);
        }
        return;
      }
      if key != "" && keys[key].paused {
        reason := if bypass then NoReason else keys[key].reason;
        ok := bypass || shadow;
        if ok {
          gone := ReserveLocked(run, key);
        }
        return;
      }
      if key != "" && !bypass {
        reason := KeyCapLocked(key, now);
        if reason != NoReason {
          ok := shadow;
          if ok {
            gone := ReserveLocked(run, key);
          }
          return;
        }
      }
      if run != "" && !bypass {
        reason := RunCapLocked(run, now);
        if reason != NoReason {
          ok := shadow;
          if ok {
            gone := ReserveLocked(run, key);
          }
          return;
        }
      }
      ok, reason := true, NoReason;
      gone := ReserveLocked(run, key);
    }

    /** Decides whether to forward a call before it leaves, and reserves it if so. */
    method AdmitKeyed(run: string, key: string, bypass: bool, now: nat)
      returns (ok: bool, reason: Reason, ghost gone: set<string>)
      requires pending == []
      modifies this
      ensures pending == []
      ensures Carried(old(State()), Event(Op.Admit(run, key, bypass), now, {}, gone), Reply(ok, reason))
    {
      hide Decide, KeyAt, LegalEviction;
      gone := {};
      NothingEvicted(State());
      if killed {
        return false, KillSwitch, gone;
      }
      if key != "" {
        var _ := KeyLocked(key, now);
      }
      if run != "" {
        var st := if run in runs then runs[run] else FRESH_RUN;
        runs := runs[run := st.(lastSeen := now)];
      }
      assert State() == Touch(old(State()), run, key, now);
      ok, reason, gone := DecideLocked(run, key, bypass, now);
      Dispatch();
    }

    /** The operation of e, with an eviction the code can make, took the controller from `before` to where it is. */
    ghost predicate Carried(before: Ctl, e: Event, reply: Reply)
      reads this
    {
      reply == ReplyTo(policy, before, e) && Legal(policy, before, e) && State() == Apply(policy, before, e)
    }

    /** A call that was served and has a cost: key first, then run, each evicting after. */
    method RecordKeyed(run: string, key: string, cost: real, loop: bool, now: nat)
      returns (ghost runsGone: set<string>, ghost keysGone: set<string>)
      requires pending == []
      modifies this
      ensures pending == []
      ensures Carried(old(State()), Event(Record(run, key, cost, loop), now, runsGone, keysGone), Reply(true, NoReason))
    {
      hide LegalEviction, RunAges, KeyAges, RecordKey, RecordRun;
      runsGone, keysGone := {}, {};
      NothingEvicted(State());
      if key != "" {
        RecordKeyLocked(key, cost, now);
        keysGone := EvictKeys();
      }
      KeysDoNotMatter(policy, if key == "" then old(State()) else RecordKey(policy, old(State()), key, cost, now),
                      keys, run, cost, loop, now);
      if run != "" {
        RecordRunLocked(run, cost, loop, now);
        runsGone := EvictRuns();
      }
      Dispatch();
    }

    method RecordKeyLocked(key: string, cost: real, now: nat)
      modifies this`keys, this`pending
      ensures State() == RecordKey(policy, old(State()), key, cost, now)
    {
      hide Micro, KeyAt, StopKey;
      var ks := KeyLocked(key, now);
      if ks.inflight > 0 {
        ks := ks.(inflight := ks.inflight - 1);
      }
      ks := ks.(dayCalls := ks.dayCalls + 1, lifeCalls := ks.lifeCalls + 1);
      ks := ks.(daySpend := ks.daySpend + cost, lifeSpend := ks.lifeSpend + cost);
      keys := keys[key := ks];
      assert State() == SetKey(old(State()), key, ChargedKey(KeyAt(old(State()), key, now), cost));
      if !ks.paused {
        if policy.maxKey > 0.0 && Micro(ks.lifeSpend) >= Micro(policy.maxKey) {
          PauseKeyLocked(key, KeyCap(key, policy.maxKey), false, now);
        } else if policy.maxKeyDay > 0.0 && Micro(ks.daySpend) >= Micro(policy.maxKeyDay) {
          PauseKeyLocked(key, KeyDayCap(key, policy.maxKeyDay), true, now);
        }
      }
    }

    method RecordRunLocked(run: string, cost: real, loop: bool, now: nat)
      modifies this`runs, this`pending
      ensures State() == RecordRun(policy, old(State()), run, cost, loop, now)
    {
      hide Micro, StopRun, SpendCapOf;
      var st := if run in runs then runs[run] else FRESH_RUN;
      if st.inflight > 0 {
        st := st.(inflight := st.inflight - 1);
      }
      st := st.(calls := st.calls + 1, spend := st.spend + cost, lastSeen := now);
      runs := runs[run := st];
      if !st.paused {
        var cap := SpendCapLocked(st);
        if policy.maxCalls > 0 && st.calls >= policy.maxCalls {
          PauseLocked(run, CallCap(policy.maxCalls), now);
        } else if cap > 0.0 && Micro(st.spend) >= Micro(cap) {
          PauseLocked(run, SpendCap(cap), now);
        } else if loop && policy.pauseOnLoop {
          PauseLocked(run, SuspectedLoop, now);
        }
      }
    }

    /** A call that was admitted and got no answer counts no longer as in flight, wherever it is known. */
    method ReleaseKeyed(run: string, key: string, now: nat)
      modifies this`runs, this`keys
      ensures Carried(old(State()), Event(Release(run, key), now, {}, {}), Reply(true, NoReason))
    {
      if key != "" && key in keys && keys[key].inflight > 0 {
        keys := keys[key := keys[key].(inflight := keys[key].inflight - 1)];
      }
      if run != "" && run in runs && runs[run].inflight > 0 {
        runs := runs[run := runs[run].(inflight := runs[run].inflight - 1)];
      }
      assert State() == Core(policy, old(State()), Release(run, key), now).ctl;
      NothingEvicted(State());
    }

    /** An operator lets a run go on; false if it was not paused. */
    method ResumeRun(run: string, now: nat) returns (found: bool)
      modifies this`runs
      ensures Carried(old(State()), Event(Op.ResumeRun(run), now, {}, {}), Reply(found, NoReason))
    {
      found := run in runs && runs[run].paused;
      if found {
        var st := runs[run].(paused := false, reason := NoReason);
        runs := runs[run := st.(calls := 0, spend := 0.0, inflight := 0)];
      }
      NothingEvicted(State());
    }

    method ResumeKey(key: string, now: nat) returns (found: bool)
      modifies this`keys
      ensures Carried(old(State()), Event(Op.ResumeKey(key), now, {}, {}), Reply(found, NoReason))
    {
      found := key in keys && keys[key].paused;
      if found {
        var ks := keys[key];
        if !ks.dayPause {
          ks := ks.(lifeCalls := 0, lifeSpend := 0.0);
        }
        ks := ks.(paused := false, reason := NoReason, dayPause := false);
        keys := keys[key := ks.(dayCalls := 0, daySpend := 0.0, inflight := 0)];
      }
      NothingEvicted(State());
    }

    /** A caller's own spend cap for its run. */
    method SetRunCap(run: string, cap: real, now: nat) returns (ghost gone: set<string>)
      modifies this`runs
      ensures Carried(old(State()), Event(Op.SetRunCap(run, cap), now, gone, {}), Reply(true, NoReason))
    {
      hide LegalEviction;
      gone := {};
      NothingEvicted(State());
      if run == "" || cap <= 0.0 {
        return;
      }
      var st := if run in runs then runs[run] else FRESH_RUN;
      runs := runs[run := st.(cap := cap, lastSeen := now)];
      gone := EvictRuns();
    }

    method SetKilled(on: bool, now: nat)
      modifies this`killed
      ensures Carried(old(State()), Event(Op.SetKilled(on), now, {}, {}), Reply(true, NoReason))
    {
      killed := on;
      NothingEvicted(State());
    }

    method NoteRun(run: string, now: nat)
      modifies this`runs
      ensures Carried(old(State()), Event(Op.NoteRun(run), now, {}, {}), Reply(true, NoReason))
    {
      if run != "" && run !in runs {
        runs := runs[run := FRESH_RUN];
      }
      NothingEvicted(State());
    }

    method NoteKey(key: string, now: nat) returns (ghost gone: set<string>)
      modifies this`keys
      ensures Carried(old(State()), Event(Op.NoteKey(key), now, {}, gone), Reply(true, NoReason))
    {
      hide LegalEviction;
      gone := {};
      NothingEvicted(State());
      if key != "" {
        var _ := KeyLocked(key, now);
        gone := EvictKeys();
      }
    }
  }
}

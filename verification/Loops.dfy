/**
  How many requests a run has made of late, and how many alike: what is remembered of them, and
  proof that it is enough to tell, short of forgetting runs.
 */
module Loops {
  import opened Control

  datatype LoopPolicy = LoopPolicy(window: nat, maxPerRun: int, maxRepeat: int, maxRuns: nat)

  datatype Ev = Ev(t: nat, sig: string)

  datatype Window = Window(events: seq<Ev>, lastSeen: nat)

  type Runs = map<string, Window>

  /** One request observed, and the runs the cap then drops. */
  datatype Observation = Observation(run: string, sig: string, now: nat, victims: set<string>)

  datatype Decision = Decision(rate: bool, repeated: bool, count: nat, repeat: nat)
  {
    predicate Suspected() {
      rate || repeated
    }
  }

  const MINUTE: nat := 60_000_000_000
  const DEFAULT_RUNS: nat := 10000

  /** A policy with the defaults filled in. */
  function Configured(window: int, maxPerRun: int, maxRepeat: int, maxRuns: int): (p: LoopPolicy)
    ensures p.window > 0 && p.maxRuns > 0
  {
    LoopPolicy(if window <= 0 then MINUTE else window, maxPerRun, maxRepeat, if maxRuns <= 0 then DEFAULT_RUNS else maxRuns)
  }

  // Requests.

  /** The requests after a cutoff, in order. */
  function Recent(evs: seq<Ev>, cutoff: int): seq<Ev> {
    if evs == [] then []
    else Recent(evs[..|evs| - 1], cutoff) + if evs[|evs| - 1].t > cutoff then [evs[|evs| - 1]] else []
  }

  function Count(evs: seq<Ev>, sig: string): nat {
    if evs == [] then 0 else Count(evs[..|evs| - 1], sig) + if evs[|evs| - 1].sig == sig then 1 else 0
  }

  /** The largest number of identical requests. */
  function Repeat(evs: seq<Ev>): nat {
    if evs == [] then 0
    else
      var before, here := Repeat(evs[..|evs| - 1]), Count(evs, evs[|evs| - 1].sig);
      if here > before then here else before
  }

  function Decide(p: LoopPolicy, evs: seq<Ev>): Decision {
    var repeat := if p.maxRepeat > 0 then Repeat(evs) else 0;
    Decision(p.maxPerRun > 0 && |evs| >= p.maxPerRun, p.maxRepeat > 0 && repeat >= p.maxRepeat, |evs|, repeat)
  }

  // The detector.

  function EventsOf(runs: Runs, run: string): seq<Ev> {
    if run in runs then runs[run].events else []
  }

  function Cutoff(p: LoopPolicy, now: nat): int {
    now - p.window
  }

  /** The run's window moved up to now, with this request at its end. */
  function Noted(p: LoopPolicy, runs: Runs, o: Observation): Runs {
    var kept := Recent(EventsOf(runs, o.run), Cutoff(p, o.now));
    runs[o.run := Window(kept + [Ev(o.now, o.sig)], o.now)]
  }

  /** Runs with a request in the window. */
  function Live(runs: Runs, cutoff: int): Runs {
    map id | id in runs && runs[id].lastSeen > cutoff :: runs[id]
  }

  function AgesOf(runs: Runs): map<string, Age> {
    map id | id in runs :: Age(false, runs[id].lastSeen)
  }

  function Tracked(p: LoopPolicy, runs: Runs, o: Observation): Runs {
    Live(Noted(p, runs, o), Cutoff(p, o.now))
  }

  function Observed(p: LoopPolicy, runs: Runs, o: Observation): Runs {
    Tracked(p, runs, o) - o.victims
  }

  /** The cap drops no more runs than it must, least recently seen first. */
  ghost predicate Legal(p: LoopPolicy, runs: Runs, o: Observation) {
    LegalEviction(AgesOf(Tracked(p, runs, o)), p.maxRuns, o.victims)
  }

  function Play(p: LoopPolicy, os: seq<Observation>): Runs {
    if os == [] then map[] else Observed(p, Play(p, os[..|os| - 1]), os[|os| - 1])
  }

  /** A sequence of observations the code can make: time does not go back, and evictions are the code's. */
  ghost predicate Possible(p: LoopPolicy, os: seq<Observation>) {
    os == [] ||
    var before, o := os[..|os| - 1], os[|os| - 1];
    Possible(p, before) && (before != [] ==> before[|before| - 1].now <= o.now) && Legal(p, Play(p, before), o)
  }

  /** There were never more runs active within the window than the cap. */
  predicate NeverOver(p: LoopPolicy, os: seq<Observation>) {
    os == [] || (NeverOver(p, os[..|os| - 1]) && |Tracked(p, Play(p, os[..|os| - 1]), os[|os| - 1])| <= p.maxRuns)
  }

  /** Every request of a run, ever. */
  function HistoryOf(os: seq<Observation>, run: string): seq<Ev> {
    if os == [] then []
    else
      var o := os[|os| - 1];
      HistoryOf(os[..|os| - 1], run) + if o.run == run then [Ev(o.now, o.sig)] else []
  }

  // Tails: what is kept is the end of what happened.

  predicate IsTail<T(==)>(a: seq<T>, b: seq<T>) {
    |a| <= |b| && b[|b| - |a|..] == a
  }

  lemma {:induction false} RecentTail(a: seq<Ev>, b: seq<Ev>, cutoff: int)
    requires IsTail(a, b)
    ensures IsTail(Recent(a, cutoff), Recent(b, cutoff))
    decreases |b|
  {
    if a != [] {
      var a0, b0 := a[..|a| - 1], b[..|b| - 1];
      assert b0[|b0| - |a0|..] == a0;
      assert a[|a| - 1] == b[|b| - |a|..][|a| - 1] == b[|b| - 1];
      RecentTail(a0, b0, cutoff);
    }
  }

  lemma RecentAppend(evs: seq<Ev>, e: Ev, cutoff: int)
    ensures Recent(evs + [e], cutoff) == Recent(evs, cutoff) + if e.t > cutoff then [e] else []
  {
    assert (evs + [e])[..|evs|] == evs;
  }

  lemma {:induction false} RecentTwice(evs: seq<Ev>, c: int, c': int)
    requires c <= c'
    ensures Recent(Recent(evs, c), c') == Recent(evs, c')
  {
    if evs != [] {
      var before, last := evs[..|evs| - 1], evs[|evs| - 1];
      RecentTwice(before, c, c');
      RecentAppend(Recent(before, c), last, c');
      assert last.t <= c ==> Recent(evs, c) == Recent(before, c);
    }
  }

  lemma {:induction false} RecentMembers(evs: seq<Ev>, cutoff: int)
    ensures forall e <- Recent(evs, cutoff) :: e.t > cutoff && e in evs
  {
    if evs != [] {
      RecentMembers(evs[..|evs| - 1], cutoff);
    }
  }

  lemma {:induction false} RecentNone(evs: seq<Ev>, cutoff: int)
    requires forall e <- evs :: e.t <= cutoff
    ensures Recent(evs, cutoff) == []
  {
    if evs != [] {
      RecentNone(evs[..|evs| - 1], cutoff);
    }
  }

  lemma {:induction false} RepeatIsLargest(evs: seq<Ev>, sig: string)
    ensures Count(evs, sig) <= Repeat(evs)
    ensures evs != [] ==> exists e <- evs :: Count(evs, e.sig) == Repeat(evs)
  {
    if evs != [] {
      var before, last := evs[..|evs| - 1], evs[|evs| - 1];
      RepeatIsLargest(before, sig);
      if Count(evs, last.sig) > Repeat(before) || before == [] {
        assert last in evs;
      } else {
        var e :| e in before && Count(before, e.sig) == Repeat(before);
        RepeatIsLargest(before, e.sig);
        assert e in evs;
      }
    }
  }

  lemma {:induction false} CountTail(a: seq<Ev>, b: seq<Ev>, sig: string)
    requires IsTail(a, b)
    ensures Count(a, sig) <= Count(b, sig)
    decreases |b|
  {
    if a != [] {
      var a0, b0 := a[..|a| - 1], b[..|b| - 1];
      assert b0[|b0| - |a0|..] == a0;
      assert a[|a| - 1] == b[|b| - |a|..][|a| - 1] == b[|b| - 1];
      CountTail(a0, b0, sig);
    }
  }

  lemma RepeatTail(a: seq<Ev>, b: seq<Ev>)
    requires IsTail(a, b)
    ensures Repeat(a) <= Repeat(b)
  {
    if a != [] {
      RepeatIsLargest(a, "");
      var e :| e in a && Count(a, e.sig) == Repeat(a);
      CountTail(a, b, e.sig);
      RepeatIsLargest(b, e.sig);
    }
  }

  // The invariant.

  /** No request a run keeps is later than when it was last seen. */
  ghost predicate Dated(runs: Runs) {
    forall id :: id in runs ==> forall e <- runs[id].events :: e.t <= runs[id].lastSeen
  }

  lemma ObservedDated(p: LoopPolicy, runs: Runs, o: Observation)
    requires Dated(runs) && (forall id :: id in runs ==> runs[id].lastSeen <= o.now)
    ensures Dated(Observed(p, runs, o)) && forall id :: id in Observed(p, runs, o) ==> Observed(p, runs, o)[id].lastSeen <= o.now
  {
    RecentMembers(EventsOf(runs, o.run), Cutoff(p, o.now));
  }

  lemma {:induction false} PlayDated(p: LoopPolicy, os: seq<Observation>)
    requires Possible(p, os)
    ensures Dated(Play(p, os))
    ensures os != [] ==> forall id :: id in Play(p, os) ==> Play(p, os)[id].lastSeen <= os[|os| - 1].now
  {
    if os != [] {
      var before := os[..|os| - 1];
      PlayDated(p, before);
      ObservedDated(p, Play(p, before), os[|os| - 1]);
    }
  }

  /** What a run's window shows, of what is kept and of its history. */
  function Shown(p: LoopPolicy, os: seq<Observation>, run: string, cutoff: int): seq<Ev> {
    Recent(EventsOf(Play(p, os), run), cutoff)
  }

  function True(os: seq<Observation>, run: string, cutoff: int): seq<Ev> {
    Recent(HistoryOf(os, run), cutoff)
  }

  /** What is kept shows the end of a run's window, and all of it if the cap never dropped a run. */
  ghost predicate Agrees(p: LoopPolicy, os: seq<Observation>, run: string, cutoff: int) {
    && IsTail(Shown(p, os, run, cutoff), True(os, run, cutoff))
    && (NeverOver(p, os) ==> Shown(p, os, run, cutoff) == True(os, run, cutoff))
  }

  lemma AgreesLater(p: LoopPolicy, os: seq<Observation>, run: string, c: int, c': int)
    requires Agrees(p, os, run, c) && c <= c'
    ensures Agrees(p, os, run, c')
  {
    RecentTwice(EventsOf(Play(p, os), run), c, c');
    RecentTwice(HistoryOf(os, run), c, c');
    RecentTail(Shown(p, os, run, c), True(os, run, c), c');
  }

  /** After a request, the run it came from: what is counted is what the window shows. */
  lemma NotedAgrees(p: LoopPolicy, os: seq<Observation>, o: Observation, evs: seq<Ev>, full: seq<Ev>)
    requires p.window > 0 && Agrees(p, os, o.run, Cutoff(p, o.now))
    requires evs == EventsOf(Noted(p, Play(p, os), o), o.run) && full == True(os + [o], o.run, Cutoff(p, o.now))
    ensures IsTail(evs, full) && (NeverOver(p, os) ==> evs == full)
  {
    var cutoff, e := Cutoff(p, o.now), Ev(o.now, o.sig);
    assert (os + [o])[..|os|] == os;
    RecentAppend(HistoryOf(os, o.run), e, cutoff);
  }

  lemma NothingDropped(p: LoopPolicy, runs: Runs, o: Observation)
    requires Legal(p, runs, o) && |Tracked(p, runs, o)| <= p.maxRuns
    ensures o.victims == {}
  {
    assert AgesOf(Tracked(p, runs, o)).Keys == Tracked(p, runs, o).Keys;
  }

  lemma ObservedAgrees(p: LoopPolicy, os: seq<Observation>, o: Observation, run: string)
    requires p.window > 0 && Possible(p, os + [o]) && Agrees(p, os, run, Cutoff(p, o.now))
    ensures Agrees(p, os + [o], run, Cutoff(p, o.now))
  {
    hide Recent, HistoryOf, LegalEviction, Possible, Agrees, NeverOver, Noted;
    var all, cutoff, runs := os + [o], Cutoff(p, o.now), Play(p, os);
    assert all[..|os|] == os && Possible(p, os) && Legal(p, runs, o) by { PossibleBefore(p, os, o); }
    assert Dated(runs) by { PlayDated(p, os); }
    if run == o.run {
      OwnRunAgrees(p, os, o);
    } else {
      OthersHistory(os, o, run);
      OtherRunAgrees(p, os, o, run);
    }
  }

  lemma PossibleBefore(p: LoopPolicy, os: seq<Observation>, o: Observation)
    requires Possible(p, os + [o])
    ensures Possible(p, os) && Legal(p, Play(p, os), o) && Play(p, os + [o]) == Observed(p, Play(p, os), o)
    ensures NeverOver(p, os + [o]) ==> NeverOver(p, os) && o.victims == {}
  {
    hide LegalEviction;
    assert (os + [o])[..|os|] == os;
    if NeverOver(p, os + [o]) {
      NothingDropped(p, Play(p, os), o);
    }
  }

  lemma OwnEvents(p: LoopPolicy, runs: Runs, o: Observation)
    requires p.window > 0
    ensures
      var evs := EventsOf(Noted(p, runs, o), o.run);
      && EventsOf(Observed(p, runs, o), o.run) == (if o.run in o.victims then [] else evs)
      && Recent(evs, Cutoff(p, o.now)) == evs
  {
    hide Recent;
    RecentMembers(EventsOf(runs, o.run), Cutoff(p, o.now));
    RecentAll(EventsOf(Noted(p, runs, o), o.run), Cutoff(p, o.now));
  }

  lemma OwnRunAgrees(p: LoopPolicy, os: seq<Observation>, o: Observation)
    requires p.window > 0 && Possible(p, os + [o]) && Agrees(p, os, o.run, Cutoff(p, o.now))
    ensures Agrees(p, os + [o], o.run, Cutoff(p, o.now))
  {
    hide Recent, HistoryOf, Possible, NeverOver, Noted, Observed;
    var cutoff, runs := Cutoff(p, o.now), Play(p, os);
    var evs := EventsOf(Noted(p, runs, o), o.run);
    PossibleBefore(p, os, o);
    NotedAgrees(p, os, o, evs, True(os + [o], o.run, cutoff));
    OwnEvents(p, runs, o);
    RecentNone([], cutoff);
  }

  lemma OtherRunAgrees(p: LoopPolicy, os: seq<Observation>, o: Observation, run: string)
    requires p.window > 0 && Possible(p, os + [o]) && Agrees(p, os, run, Cutoff(p, o.now)) && run != o.run
    requires HistoryOf(os + [o], run) == HistoryOf(os, run) && Dated(Play(p, os))
    ensures Agrees(p, os + [o], run, Cutoff(p, o.now))
  {
    hide Recent, HistoryOf, LegalEviction, Possible, NeverOver;
    var cutoff, runs := Cutoff(p, o.now), Play(p, os);
    PossibleBefore(p, os, o);
    RecentNone([], cutoff);
    if run in runs && runs[run].lastSeen <= cutoff {
      RecentNone(runs[run].events, cutoff);
    }
  }

  lemma OthersHistory(os: seq<Observation>, o: Observation, run: string)
    ensures run != o.run ==> HistoryOf(os + [o], run) == HistoryOf(os, run)
  {
    assert (os + [o])[..|os|] == os;
  }

  lemma {:induction false} RecentAll(evs: seq<Ev>, cutoff: int)
    requires forall e <- evs :: e.t > cutoff
    ensures Recent(evs, cutoff) == evs
  {
    hide Recent;
    assert Recent([], cutoff) == [] by { RecentNone([], cutoff); }
    if evs != [] {
      var before, last := evs[..|evs| - 1], evs[|evs| - 1];
      assert evs == before + [last];
      RecentAll(before, cutoff);
      RecentAppend(before, last, cutoff);
    }
  }

  lemma NothingAgrees(p: LoopPolicy, run: string, cutoff: int)
    ensures Agrees(p, [], run, cutoff)
  {
  }

  /** What is kept agrees with the history, at the moment of the last request and of the next. */
  lemma {:induction false} PlayAgrees(p: LoopPolicy, os: seq<Observation>, run: string, cutoff: int)
    requires p.window > 0 && Possible(p, os)
    requires os != [] ==> Cutoff(p, os[|os| - 1].now) <= cutoff
    ensures Agrees(p, os, run, cutoff)
    decreases |os|
  {
    hide Agrees, Legal, NeverOver, HistoryOf;
    if os == [] {
      NothingAgrees(p, run, cutoff);
    } else {
      var before, o := os[..|os| - 1], os[|os| - 1];
      assert before + [o] == os;
      PlayAgrees(p, before, run, Cutoff(p, o.now));
      ObservedAgrees(p, before, o, run);
      AgreesLater(p, os, run, Cutoff(p, o.now), cutoff);
    }
  }

  /**
    Each decision is the one the run's entire history in the window calls for, as long as no
    more runs than the cap were ever active at once; and with the cap dropping runs, counts
    only fall short, so no loop is suspected that the history does not show. Never more runs
    than the cap are tracked after a request.
   */
  lemma {:induction false} AgreesWithHistory(p: LoopPolicy, os: seq<Observation>)
    requires p.window > 0 && os != [] && Possible(p, os)
    ensures
      var before, o := os[..|os| - 1], os[|os| - 1];
      var seen := EventsOf(Noted(p, Play(p, before), o), o.run);
      var full := Recent(HistoryOf(os, o.run), o.now - p.window);
      var d, truth := Decide(p, seen), Decide(p, full);
      && (NeverOver(p, before) ==> d == truth)
      && d.count <= truth.count && d.repeat <= truth.repeat && (d.Suspected() ==> truth.Suspected())
    ensures |Play(p, os)| <= p.maxRuns
  {
    hide Recent, HistoryOf, NeverOver, Noted, Observed, Agrees, Possible, Play, Decide, IsTail, EventsOf, LegalEviction;
    var before, o := os[..|os| - 1], os[|os| - 1];
    var seen, full := EventsOf(Noted(p, Play(p, before), o), o.run), True(os, o.run, Cutoff(p, o.now));
    assert before + [o] == os;
    PossibleBefore(p, before, o);
    NotGoingBack(p, before, o);
    PlayAgrees(p, before, o.run, Cutoff(p, o.now));
    NotedAgrees(p, before, o, seen, full);
    NoFalseFlag(p, seen, full);
    CapHolds(p, Play(p, before), o);
  }

  lemma NoFalseFlag(p: LoopPolicy, seen: seq<Ev>, full: seq<Ev>)
    requires IsTail(seen, full)
    ensures
      var d, truth := Decide(p, seen), Decide(p, full);
      d.count <= truth.count && d.repeat <= truth.repeat && (d.Suspected() ==> truth.Suspected())
  {
    hide Repeat;
    RepeatTail(seen, full);
  }

  lemma NotGoingBack(p: LoopPolicy, os: seq<Observation>, o: Observation)
    requires Possible(p, os + [o])
    ensures os != [] ==> Cutoff(p, os[|os| - 1].now) <= Cutoff(p, o.now)
  {
    assert (os + [o])[..|os|] == os;
  }

  lemma CapHolds(p: LoopPolicy, runs: Runs, o: Observation)
    requires Legal(p, runs, o)
    ensures |Observed(p, runs, o)| <= p.maxRuns
  {
    var tracked := Tracked(p, runs, o);
    var ages := AgesOf(tracked);
    assert ages.Keys == tracked.Keys && Active(ages) == tracked.Keys;
    assert Observed(p, runs, o).Keys == tracked.Keys - o.victims;
  }

  // What a decision says, from the history.

  /** How many of these requests are after a cutoff, and how many of those are alike. */
  function Within(evs: seq<Ev>, cutoff: int): nat {
    if evs == [] then 0 else Within(evs[..|evs| - 1], cutoff) + if evs[|evs| - 1].t > cutoff then 1 else 0
  }

  function AlikeWithin(evs: seq<Ev>, sig: string, cutoff: int): nat {
    if evs == [] then 0
    else
      var last := evs[|evs| - 1];
      AlikeWithin(evs[..|evs| - 1], sig, cutoff) + if last.t > cutoff && last.sig == sig then 1 else 0
  }

  lemma {:induction false} RecentCounts(evs: seq<Ev>, sig: string, cutoff: int)
    ensures |Recent(evs, cutoff)| == Within(evs, cutoff)
    ensures Count(Recent(evs, cutoff), sig) == AlikeWithin(evs, sig, cutoff)
  {
    if evs != [] {
      var before, last := evs[..|evs| - 1], evs[|evs| - 1];
      RecentCounts(before, sig, cutoff);
      var recent := Recent(before, cutoff);
      if last.t > cutoff {
        assert Recent(evs, cutoff) == recent + [last] && (recent + [last])[..|recent|] == recent;
      } else {
        assert Recent(evs, cutoff) == recent;
      }
    }
  }

  /** The largest number of these requests after a cutoff that are alike. */
  ghost predicate MostAlike(evs: seq<Ev>, cutoff: int, n: nat) {
    (forall sig :: AlikeWithin(evs, sig, cutoff) <= n) && (exists sig :: AlikeWithin(evs, sig, cutoff) == n)
  }

  lemma DecidedFrom(p: LoopPolicy, evs: seq<Ev>, cutoff: int)
    ensures
      var d := Decide(p, Recent(evs, cutoff));
      && d.count == Within(evs, cutoff)
      && (d.rate <==> 0 < p.maxPerRun <= Within(evs, cutoff))
      && (d.repeated <==> p.maxRepeat > 0 && exists sig :: AlikeWithin(evs, sig, cutoff) >= p.maxRepeat)
      && (if p.maxRepeat > 0 then MostAlike(evs, cutoff, d.repeat) else d.repeat == 0)
  {
    var recent := Recent(evs, cutoff);
    RecentCounts(evs, "", cutoff);
    forall sig ensures Count(recent, sig) == AlikeWithin(evs, sig, cutoff) && Count(recent, sig) <= Repeat(recent) {
      RecentCounts(evs, sig, cutoff);
      RepeatIsLargest(recent, sig);
    }
    if recent != [] {
      RepeatIsLargest(recent, "");
      var e :| e in recent && Count(recent, e.sig) == Repeat(recent);
      assert AlikeWithin(evs, e.sig, cutoff) == Repeat(recent);
    } else {
      assert AlikeWithin(evs, "", cutoff) == 0;
    }
  }

  /** What the detector decides on the last of these observations. */
  function DecisionOn(p: LoopPolicy, os: seq<Observation>): Decision
    requires os != []
  {
    var before, o := os[..|os| - 1], os[|os| - 1];
    Decide(p, EventsOf(Noted(p, Play(p, before), o), o.run))
  }

  /**
    As long as no more runs than the cap were ever active at once: a decision counts the run's
    requests of the window, this one among them; flags their rate exactly when that many reach the
    limit set on them; and a repeat exactly when some that are alike reach the limit set on those. With
    the cap dropping runs, neither is flagged unless it should be.
   */
  lemma {:induction false} FlaggedExactly(p: LoopPolicy, os: seq<Observation>)
    requires p.window > 0 && os != [] && Possible(p, os)
    ensures
      var o, d := os[|os| - 1], DecisionOn(p, os);
      var history, cutoff := HistoryOf(os, o.run), o.now - p.window;
      var rate := 0 < p.maxPerRun <= Within(history, cutoff);
      var repeated := p.maxRepeat > 0 && exists sig :: AlikeWithin(history, sig, cutoff) >= p.maxRepeat;
      && (NeverOver(p, os[..|os| - 1]) ==>
            && d.count == Within(history, cutoff) && d.rate == rate && d.repeated == repeated
            && (if p.maxRepeat > 0 then MostAlike(history, cutoff, d.repeat) else d.repeat == 0))
      && d.count <= Within(history, cutoff) && (d.rate ==> rate) && (d.repeated ==> repeated)
      && (d.Suspected() <==> d.rate || d.repeated)
  {
    var o := os[|os| - 1];
    AgreesWithHistory(p, os);
    DecidedFrom(p, HistoryOf(os, o.run), o.now - p.window);
    DecideApart(p, EventsOf(Noted(p, Play(p, os[..|os| - 1]), o), o.run), Recent(HistoryOf(os, o.run), o.now - p.window));
    hide Decide, Within, AlikeWithin, Possible, NeverOver, HistoryOf, Recent, Noted, Play;
  }

  /** Fewer requests, and fewer alike, flag no more. */
  lemma DecideApart(p: LoopPolicy, evs: seq<Ev>, more: seq<Ev>)
    ensures
      var d, truth := Decide(p, evs), Decide(p, more);
      d.count <= truth.count && d.repeat <= truth.repeat ==> (d.rate ==> truth.rate) && (d.repeated ==> truth.repeated)
  {
  }

  // Which runs are tracked.

  /** A run tracked was last seen at the last request kept of it. */
  ghost predicate LastKept(runs: Runs) {
    forall id :: id in runs ==> var w := runs[id]; w.events != [] && w.events[|w.events| - 1].t == w.lastSeen
  }

  lemma {:induction false} PlayLastKept(p: LoopPolicy, os: seq<Observation>)
    ensures LastKept(Play(p, os))
  {
    hide Recent;
    if os != [] {
      PlayLastKept(p, os[..|os| - 1]);
    }
  }

  lemma {:induction false} SomeWithin(evs: seq<Ev>, cutoff: int)
    ensures Recent(evs, cutoff) != [] <==> exists e <- evs :: e.t > cutoff
  {
    RecentMembers(evs, cutoff);
    if e :| e in evs && e.t > cutoff {
      RecentHas(evs, e, cutoff);
    } else if Recent(evs, cutoff) != [] {
      assert Recent(evs, cutoff)[0] in Recent(evs, cutoff);
    }
  }

  lemma {:induction false} RecentHas(evs: seq<Ev>, e: Ev, cutoff: int)
    requires e in evs && e.t > cutoff
    ensures e in Recent(evs, cutoff)
  {
    if e != evs[|evs| - 1] {
      RecentHas(evs[..|evs| - 1], e, cutoff);
    }
  }

  /**
    After a request the runs tracked have one in the window; and as long as no more runs than the
    cap were ever active at once, they are all that have.
   */
  lemma {:induction false} TrackedExactly(p: LoopPolicy, os: seq<Observation>, id: string)
    requires p.window > 0 && os != [] && Possible(p, os)
    ensures
      var active := exists e <- HistoryOf(os, id) :: e.t > os[|os| - 1].now - p.window;
      (id in Play(p, os) ==> active) && (NeverOver(p, os) && active ==> id in Play(p, os))
  {
    hide HistoryOf, Possible, NeverOver;
    var runs, cutoff := Play(p, os), os[|os| - 1].now - p.window;
    PlayAgrees(p, os, id, cutoff);
    PlayLastKept(p, os);
    SomeWithin(HistoryOf(os, id), cutoff);
    SomeWithin(EventsOf(runs, id), cutoff);
    if id in runs {
      var w := runs[id];
      assert w.lastSeen > cutoff by { LiveOnly(p, os, id); }
      assert w.events[|w.events| - 1] in EventsOf(runs, id);
      assert Shown(p, os, id, cutoff) != [];
    }
    assert True(os, id, cutoff) == [] ==> Shown(p, os, id, cutoff) == [];
  }

  lemma LiveOnly(p: LoopPolicy, os: seq<Observation>, id: string)
    requires os != [] && id in Play(p, os)
    ensures Play(p, os)[id].lastSeen > os[|os| - 1].now - p.window
  {
  }
}

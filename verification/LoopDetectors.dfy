/** One request at a time: its run's buffer is compacted, what is left is counted, idle and excess runs go. */
module LoopDetectors {
  import opened Control
  import opened Loops
  import Controllers

  /** Keeps the requests after the cutoff at the front of the buffer, in order; `k` is how many. */
  method Compact(events: array<Ev>, cutoff: int) returns (k: nat)
    modifies events
    ensures k <= events.Length && events[..k] == Recent(old(events[..]), cutoff)
  {
    k := 0;
    var i := 0;
    while i < events.Length
      invariant 0 <= k <= i <= events.Length
      invariant events[i..] == old(events[i..])
      invariant events[..k] == Recent(old(events[..i]), cutoff)
    {
      var e := events[i];
      RecentAppend(old(events[..i]), e, cutoff);
      assert old(events[..i + 1]) == old(events[..i]) + [e];
      if e.t > cutoff {
        events[k] := e;
        k := k + 1;
      }
      i := i + 1;
    }
    assert old(events[..i]) == old(events[..]);
  }

  /** The largest number of identical requests, counting each as it is seen. */
  method LargestRepeat(events: seq<Ev>) returns (repeat: nat)
    ensures forall sig :: Count(events, sig) <= repeat
    ensures repeat == Repeat(events)
  {
    var bySig: map<string, nat> := map[];
    repeat := 0;
    var i := 0;
    while i < |events|
      invariant 0 <= i <= |events|
      invariant forall sig :: Count(events[..i], sig) == if sig in bySig then bySig[sig] else 0
      invariant repeat == Repeat(events[..i])
    {
      var sig := events[i].sig;
      assert events[..i + 1][..i] == events[..i];
      bySig := bySig[sig := (if sig in bySig then bySig[sig] else 0) + 1];
      if bySig[sig] > repeat {
        repeat := bySig[sig];
      }
      i := i + 1;
    }
    assert events[..i] == events;
    forall sig ensures Count(events, sig) <= repeat {
      RepeatIsLargest(events, sig);
    }
  }

  class Detector {
    const policy: LoopPolicy
    var runs: Runs

    constructor (p: LoopPolicy)
      ensures policy == p && runs == map[]
    {
      policy, runs := p, map[];
    }

    /** The run's window moved up to now, with this request at its end. */
    method Note(run: string, sig: string, now: nat) returns (kept: seq<Ev>)
      modifies this
      ensures runs == Noted(policy, old(runs), Observation(run, sig, now, {})) && kept == EventsOf(runs, run)
    {
      hide Recent;
      var events := if run in runs then runs[run].events else [];
      var buffer := new Ev[|events|](i requires 0 <= i < |events| => events[i]);
      assert buffer[..] == events;
      var k := Compact(buffer, now - policy.window);
      kept := buffer[..k] + [Ev(now, sig)];
      runs := runs[run := Window(kept, now)];
    }

    /** Records one request and decides on it; runs are then dropped, idle ones first, then by the cap. */
    method Observe(run: string, sig: string, now: nat) returns (d: Decision, ghost o: Observation)
      modifies this
      ensures o == Observation(run, sig, now, o.victims) && Loops.Legal(policy, old(runs), o)
      ensures runs == Observed(policy, old(runs), o)
      ensures d == Loops.Decide(policy, EventsOf(Noted(policy, old(runs), o), run))
    {
      hide Recent, Count, Repeat, LegalEviction, Live, AgesOf;
      var kept := Note(run, sig, now);
      var repeat := 0;
      if policy.maxRepeat > 0 {
        repeat := LargestRepeat(kept);
      }
      d := Decision(policy.maxPerRun > 0 && |kept| >= policy.maxPerRun, policy.maxRepeat > 0 && repeat >= policy.maxRepeat,
                    |kept|, repeat);
      var gone := Evict(now - policy.window);
      o := Observation(run, sig, now, gone);
    }

    method Evict(cutoff: int) returns (gone: set<string>)
      modifies this
      ensures runs == Live(old(runs), cutoff) - gone
      ensures LegalEviction(AgesOf(Live(old(runs), cutoff)), policy.maxRuns, gone)
    {
      var todo := runs.Keys;
      while todo != {}
        invariant todo <= old(runs).Keys
        invariant forall id :: id in runs <==> id in old(runs) && (id in todo || old(runs)[id].lastSeen > cutoff)
        invariant forall id :: id in runs ==> runs[id] == old(runs)[id]
        decreases |todo|
      {
        var id :| id in todo;
        if runs[id].lastSeen <= cutoff {
          runs := runs - {id};
        }
        todo := todo - {id};
      }
      assert runs == Live(old(runs), cutoff);
      gone := Controllers.Overdue(AgesOf(runs), policy.maxRuns);
      runs := runs - gone;
    }
  }
}

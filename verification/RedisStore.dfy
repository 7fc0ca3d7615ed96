/**
  The store, in place: the class whose methods run the scripts field by field, each as the one
  step it is in the store.
 */
module RedisStore {
  import opened Money
  import Control
  import S = Store

  class Redis {
    var killed: bool
    var runs: map<string, S.RunHash>
    var keys: map<string, S.KeyHash>
    var buckets: map<S.Bucket, S.Tokens>
    ghost var log: seq<S.Entry>

    ghost function State(): S.State
      reads this
    {
      S.State(killed, runs, keys, buckets, log)
    }

    constructor ()
      ensures State() == S.EMPTY_STORE
    {
      killed, runs, keys, buckets, log := false, map[], map[], map[], [];
    }

    function Run(run: string): S.RunHash
      reads this
    {
      if run in runs then runs[run] else S.NO_RUN
    }

    function Key(key: string): S.KeyHash
      reads this
    {
      if key in keys then keys[key] else S.NO_KEY
    }

    function TokensOf(run: string, key: string, tok: S.Token): S.Tokens
      reads this
    {
      if run != "" then Run(run).tokens
      else if S.Bucket(key, tok.day) in buckets then buckets[S.Bucket(key, tok.day)] else S.NO_TOKENS
    }

    /** HSET of a token's mark, wherever the token lives. */
    method SetTokens(run: string, key: string, tok: S.Token, t: S.Tokens)
      modifies this`runs, this`buckets
      ensures State() == S.PutTokens(old(State()), run, key, tok, t)
    {
      if run != "" {
        runs := runs[run := Run(run).(tokens := t)];
      } else {
        buckets := buckets[S.Bucket(key, tok.day) := t];
      }
    }

    /** The daily tally rolls over when the day has changed. */
    method RollOver(key: string, today: nat)
      modifies this`keys
      ensures State() == S.RollKey(old(State()), key, today)
    {
      if key == "" {
        return;
      }
      var k := Key(key);
      if k.day.NoDay? || today > k.day.day {
        k := k.(day := S.OnDay(today), dcalls := 0, dspend := 0, inflight := 0);
        if k.dp {
          k := k.(paused := false, reason := S.NoCode, dp := false);
        }
      }
      keys := keys[key := k];
    }

    method HoldPlace(run: string, key: string)
      modifies this`runs, this`keys
      ensures State() == S.HoldPlace(old(State()), run, key)
    {
      if run != "" {
        runs := runs[run := Run(run).(inflight := Run(run).inflight + 1)];
      }
      if key != "" {
        keys := keys[key := Key(key).(inflight := Key(key).inflight + 1)];
      }
    }

    /** The script's local function reserve. */
    method ReserveCall(run: string, key: string, tok: S.Token, ghost forced: bool)
      modifies this`runs, this`keys, this`buckets, this`log
      ensures State() == S.Reserve(old(State()), run, key, tok, forced)
    {
      HoldPlace(run, key);
      hide S.PutTokens, S.HoldPlace;
      var t := TokensOf(run, key, tok);
      SetTokens(run, key, tok, t.(admits := t.admits[tok := S.Served]));
      log := log + [S.Admitted(run, key, tok, forced)];
    }

    method PauseRun(run: string, code: S.Code)
      modifies this`runs
      ensures State() == S.PauseRun(old(State()), run, code)
    {
      runs := runs[run := Run(run).(paused := true, reason := code)];
    }

    method PauseKey(key: string, code: S.Code)
      modifies this`keys
      ensures State() == S.PauseKey(old(State()), key, code)
    {
      keys := keys[key := Key(key).(paused := true, reason := code, dp := code.KDay?)];
    }

    /** What the calls in flight are reserved at, as the script works it out. */
    method ReservedFor(floor: int, spend: int, calls: nat, inflight: nat) returns (reserved: real)
      ensures reserved == Reserved(floor as real, spend as real, calls, inflight)
    {
      var per := floor as real;
      if calls > 0 && spend as real / calls as real > per {
        per := spend as real / calls as real;
      }
      reserved := per * inflight as real;
    }

    method CodeForKey(l: S.Limits, key: string) returns (code: S.Code)
      ensures code == S.KeyCode(l, Key(key))
    {
      hide Reserved;
      var k := Key(key);
      var reserved := ReservedFor(l.floor, k.lspend, k.lcalls, k.inflight);
      code := S.NoCode;
      if l.klife > 0 && k.lspend as real + reserved >= l.klife as real {
        code := S.KLife(l.klife);
      } else if l.kday > 0 && k.dspend as real + reserved >= l.kday as real {
        code := S.KDay(l.kday);
      }
    }

    method CodeForRun(l: S.Limits, run: string) returns (code: S.Code)
      ensures code == S.RunCode(l, Run(run))
    {
      hide Reserved;
      var h := Run(run);
      code := S.NoCode;
      if l.maxCalls > 0 && h.calls + h.inflight >= l.maxCalls {
        code := S.Calls(l.maxCalls);
      }
      if code == S.NoCode {
        var cap := l.cap;
        if h.cap > 0 && (cap == 0 || h.cap < cap) {
          cap := h.cap;
        }
        if cap > 0 {
          var reserved := ReservedFor(l.floor, h.spend, h.calls, h.inflight);
          if h.spend as real + reserved >= cap as real {
            code := S.Spend(cap);
          }
        }
      }
    }

    /** The admission script. */
    method Admit(l: S.Limits, run: string, key: string, mode: S.Mode, today: nat, tok: S.Token) returns (a: S.Answer)
      requires run != "" || key != ""
      modifies this`runs, this`keys, this`buckets, this`log
      ensures (State(), a) == S.Admit(l, old(State()), run, key, mode, today, tok)
    {
      hide S.Carry, S.VerdictOf;
      var t := TokensOf(run, key, tok);
      if tok in t.admits {
        return match t.admits[tok]
               case Served => S.Answer(true, S.NoCode, false, false)
               case Refused(code) => S.Answer(false, code, false, false);
      }
      if killed {
        return S.Answer(false, S.NoCode, false, true);
      }
      RollOver(key, today);
      a := Decide(l, run, key, mode, tok);
    }

    /** The rest of it, once the key has rolled over. */
    method Decide(l: S.Limits, run: string, key: string, mode: S.Mode, tok: S.Token) returns (a: S.Answer)
      modifies this`runs, this`keys, this`buckets, this`log
      ensures (State(), a) == S.Carry(old(State()), S.VerdictOf(l, old(State()), run, key, mode), run, key, mode, tok)
    {
      hide S.Reserve, S.KeyCode, S.RunCode, S.PauseRun, S.PauseKey, S.PutTokens;
      var bypass, shadow := mode == S.Bypassing, mode == S.Shadowing;
      if run != "" && Run(run).paused {
        var code := Run(run).reason;
        if bypass || shadow {
          ReserveCall(run, key, tok, bypass);
          return S.Answer(true, if shadow then code else S.NoCode, false, false);
        }
        return S.Answer(false, code, false, false);
      }
      if key != "" && Key(key).paused {
        var code := Key(key).reason;
        if bypass || shadow {
          ReserveCall(run, key, tok, bypass);
          return S.Answer(true, if shadow then code else S.NoCode, false, false);
        }
        return S.Answer(false, code, false, false);
      }
      if key != "" && !bypass {
        var code := CodeForKey(l, key);
        if code != S.NoCode {
          PauseKey(key, code);
          a := MarkedOrRefused(run, key, shadow, code, tok);
          return;
        }
      }
      if run != "" && !bypass {
        var code := CodeForRun(l, run);
        if code != S.NoCode {
          PauseRun(run, code);
          a := MarkedOrRefused(run, key, shadow, code, tok);
          return;
        }
      }
      ReserveCall(run, key, tok, bypass);
      return S.Answer(true, S.NoCode, false, false);
    }

    /** A call that has just met a ceiling: served all the same in shadow mode, refused and marked otherwise. */
    method MarkedOrRefused(run: string, key: string, shadow: bool, code: S.Code, tok: S.Token) returns (a: S.Answer)
      modifies this`runs, this`keys, this`buckets, this`log
      ensures State() == if shadow then S.Reserve(old(State()), run, key, tok, false)
                         else S.MarkAdmit(old(State()), run, key, tok, S.Refused(code))
      ensures a == S.Answer(shadow, code, true, false)
    {
      if shadow {
        ReserveCall(run, key, tok, false);
      } else {
        var t := TokensOf(run, key, tok);
        SetTokens(run, key, tok, t.(admits := t.admits[tok := S.Refused(code)]));
      }
      a := S.Answer(shadow, code, true, false);
    }

    /** HSETNX of a token's settlement: says whether this is the first. */
    method FirstSettlement(run: string, key: string, tok: S.Token) returns (first: bool)
      modifies this`runs, this`buckets
      ensures first == !S.IsSettled(old(State()), run, key, tok)
      ensures State() == if first then S.MarkSettled(old(State()), run, key, tok) else old(State())
    {
      var t := TokensOf(run, key, tok);
      first := tok !in t.settled;
      if first {
        SetTokens(run, key, tok, t.(settled := t.settled + {tok}));
      }
    }

    /** The record script. */
    method Record(l: S.Limits, run: string, key: string, cost: int, loop: bool, today: nat, tok: S.Token)
      requires run != "" || key != ""
      modifies this`runs, this`keys, this`buckets, this`log
      ensures State() == S.Record(l, old(State()), run, key, cost, loop, today, tok)
    {
      hide S.ChargeRun, S.ChargeKey, S.MarkSettled;
      var first := FirstSettlement(run, key, tok);
      if !first {
        return;
      }
      if run != "" {
        ChargeRun(l, run, cost, loop);
      }
      if key != "" {
        ChargeKey(l, key, cost, today);
      }
      log := log + [S.Recorded(run, key, tok, cost)];
    }

    method ChargeRun(l: S.Limits, run: string, cost: int, loop: bool)
      modifies this`runs
      ensures State() == S.PutRun(old(State()), run, S.ChargeRun(l, S.HashOf(old(State()), run), cost, loop))
    {
      var h := Run(run);
      if h.inflight > 0 {
        h := h.(inflight := h.inflight - 1);
      }
      h := h.(calls := h.calls + 1);
      h := h.(spend := h.spend + cost);
      if !h.paused {
        var cap := l.cap;
        if h.cap > 0 && (cap == 0 || h.cap < cap) {
          cap := h.cap;
        }
        var code := S.NoCode;
        if l.maxCalls > 0 && h.calls >= l.maxCalls {
          code := S.Calls(l.maxCalls);
        } else if cap > 0 && h.spend >= cap {
          code := S.Spend(cap);
        } else if loop && l.pauseOnLoop {
          code := S.Loop;
        }
        if code != S.NoCode {
          h := h.(paused := true, reason := code);
        }
      }
      runs := runs[run := h];
    }

    method ChargeKey(l: S.Limits, key: string, cost: int, today: nat)
      requires key != ""
      modifies this`keys
      ensures State() == S.PutKey(old(State()), key, S.ChargeKey(l, S.RollHash(S.KeyHashOf(old(State()), key), today), cost))
    {
      RollOver(key, today);
      var k := keys[key];
      if k.inflight > 0 {
        k := k.(inflight := k.inflight - 1);
      }
      k := k.(dcalls := k.dcalls + 1, dspend := k.dspend + cost);
      k := k.(lcalls := k.lcalls + 1, lspend := k.lspend + cost);
      if !k.paused {
        if l.klife > 0 && k.lspend >= l.klife {
          k := k.(paused := true, reason := S.KLife(l.klife), dp := false);
        } else if l.kday > 0 && k.dspend >= l.kday {
          k := k.(paused := true, reason := S.KDay(l.kday), dp := true);
        }
      }
      keys := keys[key := k];
    }

    method GiveUpPlace(run: string, key: string)
      modifies this`runs, this`keys
      ensures State() == S.GiveUpPlace(old(State()), run, key)
    {
      if run != "" {
        var h := Run(run);
        runs := runs[run := h.(inflight := if h.inflight > 0 then h.inflight - 1 else 0)];
      }
      if key != "" && key in keys && keys[key].inflight > 0 {
        keys := keys[key := keys[key].(inflight := keys[key].inflight - 1)];
      }
    }

    /** The release script. */
    method Release(run: string, key: string, tok: S.Token)
      requires run != "" || key != ""
      modifies this`runs, this`keys, this`buckets, this`log
      ensures State() == S.Release(old(State()), run, key, tok)
    {
      hide S.MarkSettled, S.GiveUpPlace;
      var first := FirstSettlement(run, key, tok);
      if !first {
        return;
      }
      GiveUpPlace(run, key);
      log := log + [S.Released(run, key, tok)];
    }

    method SetCap(run: string, cap: int)
      modifies this`runs
      ensures State() == S.SetCap(old(State()), run, cap)
    {
      runs := runs[run := Run(run).(cap := cap)];
    }

    method ResumeRun(run: string) returns (found: bool)
      modifies this`runs, this`log
      ensures found == S.HashOf(old(State()), run).paused && State() == S.ResumeRun(old(State()), run)
    {
      found := Run(run).paused;
      if found {
        runs := runs[run := Run(run).(paused := false, reason := S.NoCode, calls := 0, spend := 0, inflight := 0)];
        log := log + [S.Wiped(run)];
      }
    }

    method ResumeKey(key: string) returns (found: bool)
      modifies this`keys
      ensures found == S.KeyHashOf(old(State()), key).paused && State() == S.ResumeKey(old(State()), key)
    {
      var k := Key(key);
      found := k.paused;
      if found {
        if !k.dp {
          k := k.(lcalls := 0, lspend := 0);
        }
        keys := keys[key := k.(paused := false, reason := S.NoCode, dp := false, dcalls := 0, dspend := 0, inflight := 0)];
      }
    }

    /** Writes back a run pause a fallback made. */
    method WriteRunPause(run: string, reason: Control.Reason)
      modifies this`runs
      ensures State() == S.WriteRunPause(old(State()), run, reason)
    {
      PauseRun(run, S.Text(reason));
    }

    /** A fallback's stop of a key, kept here unless it was for a day gone by. */
    method WriteKeyPause(key: string, reason: Control.Reason, day: bool, onDay: nat)
      modifies this`keys
      ensures State() == S.WriteKeyPause(old(State()), key, reason, day, onDay)
    {
      var k := Key(key);
      if day {
        if k.day.OnDay? && onDay < k.day.day {
          return;
        }
        if k.day.NoDay? || onDay > k.day.day {
          k := k.(day := S.OnDay(onDay), dcalls := 0, dspend := 0, inflight := 0);
        }
      }
      keys := keys[key := k.(paused := true, reason := S.Text(reason), dp := day)];
    }

    method SetKilled(on: bool)
      modifies this`killed
      ensures State() == S.SetKilled(old(State()), on)
    {
      killed := on;
    }
  }
}

/**
  A request's life in the gateway: it is admitted once, and an admitted call is settled once,
  recorded if the provider answered and given back if it did not. Any number of requests are
  under way at once. This is what the bounds on runs and keys assume of their traces.
 */
module Gateway {
  import opened ByteStrings
  import opened Money
  import opened Control
  import opened Histories
  import KeyBounds
  import RunBounds

  /** A call under way: the run and the key it was admitted on. */
  datatype Request = Request(run: string, key: string)

  type Outstanding = map<nat, Request>

  /** One call of the controller, on behalf of the request with this id (or of an operator's). */
  datatype Act = Act(id: nat, e: Event)

  /** What a request may do next: be admitted once; once admitted, be settled on the run and key it was admitted on. */
  predicate InOrder(out: Outstanding, a: Act) {
    match a.e.op
    case Admit(_, _, _) => a.id !in out
    case Record(run, key, _, _) => a.id in out && out[a.id] == Request(run, key)
    case Release(run, key) => a.id in out && out[a.id] == Request(run, key)
    case _ => true
  }

  function OutAfter(p: Policy, c: Ctl, out: Outstanding, a: Act): Outstanding {
    match a.e.op
    case Admit(run, key, _) => if ReplyTo(p, c, a.e).ok then out[a.id := Request(run, key)] else out
    case Record(_, _, _, _) => out - {a.id}
    case Release(_, _) => out - {a.id}
    case _ => out
  }

  /** Calls of the controller as requests and operators make them, in any interleaving. */
  ghost predicate Serves(p: Policy, c: Ctl, out: Outstanding, acts: seq<Act>)
    decreases |acts|
  {
    acts == [] ||
    (Legal(p, c, acts[0].e) && InOrder(out, acts[0])
     && Serves(p, Apply(p, c, acts[0].e), OutAfter(p, c, out, acts[0]), acts[1..]))
  }

  function Events(acts: seq<Act>): (es: seq<Event>)
    ensures |es| == |acts| && forall i :: 0 <= i < |acts| ==> es[i] == acts[i].e
  {
    if acts == [] then [] else [acts[0].e] + Events(acts[1..])
  }

  /** The outstanding calls that concern a run or key. */
  function Of(out: Outstanding, s: Subject): set<nat> {
    set id | id in out && Concerns(s, out[id].run, out[id].key)
  }

  lemma OneMore(out: Outstanding, id: nat, r: Request, s: Subject)
    requires id !in out
    ensures |Of(out[id := r], s)| == |Of(out, s)| + if Concerns(s, r.run, r.key) then 1 else 0
  {
    assert Of(out[id := r], s) == Of(out, s) + if Concerns(s, r.run, r.key) then {id} else {};
  }

  lemma OneFewer(out: Outstanding, id: nat, s: Subject)
    requires id in out
    ensures |Of(out - {id}, s)| == |Of(out, s)| - if Concerns(s, out[id].run, out[id].key) then 1 else 0
  {
    assert Of(out - {id}, s) == Of(out, s) - {id};
  }

  lemma KilledRefuses(p: Policy, c: Ctl, e: Event)
    requires e.op.Admit?
    ensures c.killed ==> !Core(p, c, e.op, e.now).reply.ok
  {
  }

  /** A history's calls out are the requests outstanding. */
  lemma OutIsOutstanding(p: Policy, w: World, out: Outstanding, a: Act, s: Subject)
    requires InOrder(out, a) && w.ledger.out == |Of(out, s)|
    ensures Settles(a.e.op, s, w.ledger)
    ensures Next(p, s, w, a.e).ledger.out == |Of(OutAfter(p, w.ctl, out, a), s)|
    ensures Next(p, s, w, a.e).ctl == Apply(p, w.ctl, a.e)
  {
    hide Core, Of, Evict;
    match a.e.op {
      case Admit(run, key, _) =>
        KilledRefuses(p, w.ctl, a.e);
        OneMore(out, a.id, Request(run, key), s);
      case Record(_, _, _, _) => OneFewer(out, a.id, s);
      case Release(_, _) => OneFewer(out, a.id, s);
      case _ =>
    }
  }

  /** Whatever requests do, each run's and each key's history is one in which every call is settled at most once. */
  lemma {:induction false} EveryCallSettledOnce(p: Policy, w: World, out: Outstanding, acts: seq<Act>, s: Subject)
    requires Serves(p, w.ctl, out, acts) && w.ledger.out == |Of(out, s)|
    ensures Possible(p, s, w, Events(acts))
    decreases |acts|
  {
    hide Apply, Legal, Settles, Next, OutAfter, InOrder;
    if acts != [] {
      OutIsOutstanding(p, w, out, acts[0], s);
      EveryCallSettledOnce(p, Next(p, s, w, acts[0].e), OutAfter(p, w.ctl, out, acts[0]), acts[1..], s);
      assert Events(acts)[1..] == Events(acts[1..]);
    }
  }

  /** The spend bound, for a gateway from its start: whatever its requests, its operators and its clock do. */
  lemma {:induction false} GatewaySpendBound(p: Policy, r: string, acts: seq<Act>, end: World)
    requires r != "" && RunBounds.SpendPolicy(p) && (forall a <- acts :: WithinFloor(p, a.e.op))
    requires Serves(p, EMPTY, map[], acts) && end == Play(p, Run(r), World(EMPTY, NEW_LEDGER), Events(acts))
    ensures Under(end.ledger.spent + Copies(end.ledger.out, p.floor),
                  Copies(end.ledger.clearances + 1, Rounded(p.maxSpend) + p.floor) + Copies(end.ledger.bypassed, p.floor),
                  Rounded(p.maxSpend) > 0.0)
  {
    hide Serves, Play, Possible, Copies, Under;
    var w := World(EMPTY, NEW_LEDGER);
    assert Of(map[], Run(r)) == {};
    EveryCallSettledOnce(p, w, map[], acts, Run(r));
    forall e | e in Events(acts) ensures WithinFloor(p, e.op) {
      var i :| 0 <= i < |acts| && Events(acts)[i] == e;
      assert acts[i] in acts;
    }
    RunBounds.SpendOvershootBound(p, r, w, Events(acts), end);
  }

  /** The key bound, likewise: across midnights, and whatever runs the key starts. */
  lemma {:induction false} GatewayKeyBound(p: Policy, k: string, acts: seq<Act>, end: World)
    requires k != "" && KeyBounds.KeyPolicy(p) && (forall a <- acts :: WithinFloor(p, a.e.op))
    requires Serves(p, EMPTY, map[], acts) && end == Play(p, Key(k), World(EMPTY, NEW_LEDGER), Events(acts))
    ensures Under(end.ledger.spent + Copies(end.ledger.out, p.floor),
                  Copies(end.ledger.clearances + 1, Rounded(p.maxKey) + p.floor) + KeyBounds.Excused(p.floor, end.ledger),
                  Rounded(p.maxKey) > 0.0)
  {
    hide Serves, Play, Possible, Copies, Under, KeyBounds.Excused;
    var w := World(EMPTY, NEW_LEDGER);
    assert Of(map[], Key(k)) == {};
    EveryCallSettledOnce(p, w, map[], acts, Key(k));
    forall e | e in Events(acts) ensures WithinFloor(p, e.op) {
      var i :| 0 <= i < |acts| && Events(acts)[i] == e;
      assert acts[i] in acts;
    }
    KeyBounds.KeyTotalBound(p, k, w, Events(acts), end);
  }

  // The copy of a response kept for reading its usage.

  /** At most `limit` bytes, from the front. */
  function Front(s: Bytes, limit: nat): Bytes {
    if |s| <= limit then s else s[..limit]
  }

  class CapWriter {
    const limit: nat
    var buf: Bytes
    ghost var seen: Bytes

    /** What is kept is the front of what was written, however it was cut. */
    ghost predicate Valid()
      reads this
    {
      buf == Front(seen, limit)
    }

    constructor (max: nat)
      ensures Valid() && limit == max && seen == []
    {
      limit, buf, seen := max, [], [];
    }

    method Write(chunk: Bytes)
      requires Valid()
      modifies this
      ensures Valid() && seen == old(seen) + chunk
    {
      var room := limit - |buf|;
      if room > 0 {
        buf := buf + if |chunk| <= room then chunk else chunk[..room];
      }
      seen := seen + chunk;
    }
  }
}

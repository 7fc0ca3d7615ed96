/**
  Any number of replicas and the store they share, as one transition system. Admissions and
  settlements are scripts sent to the store whose answers may be lost; a replica in a gap
  decides by its own fallback and owes what it should have sent.
 */
module Clusters {
  import opened Control
  import opened Histories
  import opened Replica
  import Store

  /** A call sent to the store under a token: which replica's it is, and what was asked. */
  datatype Ask = Ask(replica: nat, run: string, key: string, bypass: bool)

  datatype Answer = Unanswered | Said(ok: bool)

  /** How a served call ended: with a cost, or given back. */
  datatype Closing = Costs(cost: int, loop: bool) | GivenUp

  /** A call the store serves: under way, or ended and not yet settled or owed. */
  datatype Call = Serving | Closing(closing: Closing)

  /**
    `drawn` are all tokens ever drawn. `asks` are admissions on their way, `lost` those given
    up unanswered, of which a copy may yet arrive; `calls` are being served by the store's leave;
    `errors` are settlements the store answered with an error. As history, `served` and `freed`
    are the tokens of the calls the store's answers served, and of those given back.
   */
  datatype Cluster = Cluster(
    store: Store.State, replicas: seq<Replica>,
    drawn: map<Store.Token, Ask>, asks: map<Store.Token, Answer>, lost: set<Store.Token>,
    calls: map<Store.Token, Call>, errors: set<Store.Token>,
    served: set<Store.Token>, freed: set<Store.Token>)

  datatype Act =
    | Send(tok: Store.Token, ask: Ask)
    | Arrive(tok: Store.Token, today: nat)              // the admission script runs in the store
    | Hear(tok: Store.Token)                            // its answer reaches the replica
    | GiveUp(tok: Store.Token)
    | End(tok: Store.Token, closing: Closing)
    | Settle(tok: Store.Token, fate: Fate, today: nat)  // a settlement sent straight to the store
    | OweIt(tok: Store.Token)                           // a settlement owed instead
    | OnReplica(i: nat, m: Move, today: nat)
    | Ordered(cmd: Store.Command, today: nat)           // an operator's or caller's command sent straight to it

  /** The settlement of the call under a token. */
  function CommandOf(ask: Ask, tok: Store.Token, closing: Closing): Store.Command {
    match closing
    case Costs(cost, loop) => Store.DoRecord(ask.run, ask.key, tok, cost, loop)
    case GivenUp => Store.DoRelease(ask.run, ask.key, tok)
  }

  /** Where the token of a call drawn is marked in the store. */
  function AskedAt(c: Cluster, tok: Store.Token): Store.Place
    requires tok in c.drawn
  {
    Store.PlaceOf(c.drawn[tok].run, c.drawn[tok].key, tok)
  }

  predicate Settling(cmd: Store.Command) {
    cmd.DoRecord? || cmd.DoRelease?
  }

  ghost predicate CanAct(c: Cluster, a: Act) {
    match a
    case Send(tok, ask) => tok !in c.drawn && ask.replica < |c.replicas| && (ask.run != "" || ask.key != "")
    case Arrive(tok, _) =>
      && tok in c.drawn && (tok in c.asks || tok in c.lost)
      && (c.drawn[tok].run != "" || c.drawn[tok].key != "")
    case Hear(tok) => tok in c.asks && c.asks[tok].Said? && tok in c.drawn
    case GiveUp(tok) => tok in c.asks
    case End(tok, _) => tok in c.calls && c.calls[tok].Serving? && tok in c.drawn
    case Settle(tok, _, _) => tok in c.calls && c.calls[tok].Closing? && tok in c.drawn
    case OweIt(tok) =>
      tok in c.calls && c.calls[tok].Closing? && tok in c.drawn && c.drawn[tok].replica < |c.replicas|
    case OnReplica(i, m, _) => i < |c.replicas| && CanMove(c.replicas[i], m) && (m.Owes? ==> !Settling(m.cmd))
    case Ordered(cmd, _) => cmd.DoSetCap? || cmd.DoResumeRun? || cmd.DoResumeKey?
  }

  /** What a replica's move makes of the store: the script it sends, if it is carried out. */
  function StoreAfter(p: Policy, s: Store.State, r: Replica, m: Move, today: nat): Store.State
    requires CanMove(r, m)
  {
    match m
    case Steps(Deliver(Take(fate))) =>
      if Executed(fate) then Store.Exec(Store.LimitsOf(p), s, r.queue.batch[0].cmd, today) else s
    case Steps(Deliver(WriteKill(fate))) => if Executed(fate) then Store.SetKilled(s, r.stage.on) else s
    case Steps(Switch(SetterWrites(i, fate))) => if Executed(fate) then Store.SetKilled(s, r.kill.setters[i].on) else s
    case _ => s
  }

  /** One act; fallbacks keep the history of the run or key watched. */
  function Acted(p: Policy, watched: Subject, c: Cluster, a: Act): Cluster
    requires CanAct(c, a)
  {
    var l := Store.LimitsOf(p);
    match a
    case Send(tok, ask) => c.(drawn := c.drawn[tok := ask], asks := c.asks[tok := Unanswered])
    case Arrive(tok, today) =>
      var ask := c.drawn[tok];
      var (s, answer) := Store.Admit(l, c.store, ask.run, ask.key, Store.ModeOf(p, ask.bypass), today, tok);
      c.(store := s, asks := if tok in c.asks then c.asks[tok := Said(answer.ok)] else c.asks)
    case Hear(tok) =>
      var c1 := c.(asks := c.asks - {tok});
      if !c.asks[tok].ok then c1
      else c1.(calls := c.calls[tok := Serving], served := c.served + {tok})
    case GiveUp(tok) => c.(asks := c.asks - {tok}, lost := c.lost + {tok})
    case End(tok, closing) =>
      c.(calls := c.calls[tok := Closing(closing)], freed := c.freed + if closing.GivenUp? then {tok} else {})
    case Settle(tok, fate, today) =>
      var cmd := CommandOf(c.drawn[tok], tok, c.calls[tok].closing);
      c.(store := if Executed(fate) then Store.Exec(l, c.store, cmd, today) else c.store,
         calls := if fate.Lost? then c.calls else c.calls - {tok},
         errors := if fate.Refusal? then c.errors + {tok} else c.errors)
    case OweIt(tok) =>
      var i := c.drawn[tok].replica;
      var cmd := CommandOf(c.drawn[tok], tok, c.calls[tok].closing);
      c.(replicas := c.replicas[i := Owe(c.replicas[i], cmd)], calls := c.calls - {tok})
    case OnReplica(i, m, today) =>
      c.(store := StoreAfter(p, c.store, c.replicas[i], m, today),
         replicas := c.replicas[i := Moved(p, watched, c.replicas[i], m)])
    case Ordered(cmd, today) => c.(store := Store.Exec(l, c.store, cmd, today))
  }

  ghost predicate CanUnfold(p: Policy, watched: Subject, c: Cluster, acts: seq<Act>)
    decreases |acts|
  {
    acts == [] || (CanAct(c, acts[0]) && CanUnfold(p, watched, Acted(p, watched, c, acts[0]), acts[1..]))
  }

  function Unfolded(p: Policy, watched: Subject, c: Cluster, acts: seq<Act>): Cluster
    requires CanUnfold(p, watched, c, acts)
    decreases |acts|
  {
    if acts == [] then c else Unfolded(p, watched, Acted(p, watched, c, acts[0]), acts[1..])
  }

  /** Healthy replicas over an empty store. */
  ghost predicate Begins(c: Cluster) {
    && (forall i :: 0 <= i < |c.replicas| ==> Starts(c.replicas[i]))
    && c == Cluster(Store.EMPTY_STORE, c.replicas, map[], map[], {}, map[], {}, {}, {})
  }
}

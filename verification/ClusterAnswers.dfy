/**
  What the store of a cluster answers the next call of a run, from the tokens of the run's calls
  alone: those recorded and their costs, and those still open, whichever replicas they are of.
 */
module ClusterAnswers {
  import opened Control
  import opened Histories
  import opened Clusters
  import opened Exactness
  import opened StoreLedger
  import Ceilings
  import Replica
  import Store

  /** Dollars recorded, and calls recorded and open, come up to a cap: at the floor for each open, or at the average so far. */
  predicate TokensReach(floor: int, dollars: int, recorded: nat, open: nat, cap: int) {
    || dollars + floor * open >= cap
    || (recorded > 0 && dollars * (recorded + open) >= cap * recorded)
  }

  lemma TalliesReach(floor: int, dollars: int, recorded: nat, open: nat, cap: int)
    ensures Ceilings.StoreReaches(floor, dollars, dollars, recorded, open, cap)
       <==> TokensReach(floor, dollars, recorded, open, cap)
  {
    assert dollars * (recorded + open) == dollars * recorded + dollars * open;
  }

  lemma RunAnswered(l: Store.Limits, s: Store.State, run: string, today: nat, tok: Store.Token)
    requires run != "" && !s.killed && !Store.HashOf(s, run).paused && tok !in Store.HashOf(s, run).tokens.admits
    ensures
      var h := Store.HashOf(s, run);
      var a := Store.Admit(l, s, run, "", Store.Deciding, today, tok).1;
      var calls := l.maxCalls > 0 && h.calls + h.inflight >= l.maxCalls;
      var spend := Ceilings.EitherStored(l, h, Ceilings.RunStoreReaches(l, h));
      a == if calls then Store.Answer(false, Store.Calls(l.maxCalls), true, false)
           else if spend then Store.Answer(false, Store.Spend(Ceilings.LowerStored(l, h)), true, false)
           else Store.Answer(true, Store.NoCode, false, false)
  {
    hide Store.Admit, Store.RollHash, Ceilings.EitherStored, Ceilings.LowerStored, Ceilings.StoreReaches;
    Ceilings.StoreAnswered(l, s, run, "", Store.Deciding, today, tok);
  }

  /**
    In every state replicas and store can reach, with nothing assumed of what calls cost: until a run
    is first resumed, a new call of it, if the run is not paused and the kill switch is off, is refused at the
    call cap exactly when the run's tokens recorded and open number as many; else at the spend cap exactly
    when they come up to the policy's cap or the run's own, the lower of which is the reason; and is served
    otherwise.
   */
  lemma {:induction false} AnsweredFromTokens(
    p: Policy, watched: Subject, run: string, start: Cluster, acts: seq<Act>, c: Cluster, today: nat, tok: Store.Token)
    requires run != "" && Begins(start) && CanUnfold(p, watched, start, acts) && c == Unfolded(p, watched, start, acts)
    requires Count(c.store.log, Wipe, Store.InRun(run)) == 0
    requires !c.store.killed && !Store.HashOf(c.store, run).paused && tok !in Store.HashOf(c.store, run).tokens.admits
    ensures
      var l, h, x, log := Store.LimitsOf(p), Store.HashOf(c.store, run), Store.InRun(run), c.store.log;
      var dollars, recorded, open := Sum(log, x), Count(log, Recording, x), |OpenTokens(h.tokens)|;
      var calls := l.maxCalls > 0 && recorded + open >= l.maxCalls;
      var spend := || (l.cap > 0 && TokensReach(l.floor, dollars, recorded, open, l.cap))
                   || (l.cap >= 0 && h.cap > 0 && TokensReach(l.floor, dollars, recorded, open, h.cap));
      var lower := if l.cap > 0 && !(0 < h.cap < l.cap) then l.cap else h.cap;
      Store.Admit(l, c.store, run, "", Store.Deciding, today, tok).1
      == if calls then Store.Answer(false, Store.Calls(l.maxCalls), true, false)
         else if spend then Store.Answer(false, Store.Spend(lower), true, false)
         else Store.Answer(true, Store.NoCode, false, false)
  {
    var l, h, x, log := Store.LimitsOf(p), Store.HashOf(c.store, run), Store.InRun(run), c.store.log;
    ExactlyOnce(p, watched, x, start, acts, c);
    RunAnswered(l, c.store, run, today, tok);
    TalliesReach(l.floor, Sum(log, x), Count(log, Recording, x), |OpenTokens(h.tokens)|, l.cap);
    TalliesReach(l.floor, Sum(log, x), Count(log, Recording, x), |OpenTokens(h.tokens)|, h.cap);
    hide CanUnfold, Unfolded, Begins, Count, Sum, OpenTokens, Store.Admit, TokensReach, Ceilings.StoreReaches, HeldByOne;
  }

  // One fate for each admission.

  /** An admission is on its way, or given up, or its answer was heard; and only a call whose answer was heard is served. */
  ghost predicate OneFate(c: Cluster) {
    && (forall tok <- c.lost :: tok in c.drawn && tok !in c.asks && tok !in c.served)
    && (forall tok <- c.asks :: tok in c.drawn && tok !in c.served)
    && (forall tok <- c.calls :: tok in c.served)
    && (forall tok <- c.served :: tok in c.drawn)
  }

  lemma ActFate(p: Policy, watched: Subject, c: Cluster, a: Act)
    requires CanAct(c, a) && OneFate(c)
    ensures OneFate(Acted(p, watched, c, a))
  {
    hide Store.Admit, Store.Exec, StoreAfter, Replica.Moved, Replica.CanMove, Replica.Enqueued;
  }

  /** In every state of a cluster; so a call given up, and decided elsewhere, is never served by the store's leave as well. */
  lemma {:induction false} GivenUpIsNotServed(p: Policy, watched: Subject, start: Cluster, acts: seq<Act>)
    requires OneFate(start) && CanUnfold(p, watched, start, acts)
    ensures OneFate(Unfolded(p, watched, start, acts))
    decreases |acts|
  {
    hide Acted, CanAct, OneFate;
    if acts != [] {
      ActFate(p, watched, start, acts[0]);
      GivenUpIsNotServed(p, watched, Acted(p, watched, start, acts[0]), acts[1..]);
    }
  }

  lemma BeginFate(c: Cluster)
    requires Begins(c)
    ensures OneFate(c)
  {
  }
}

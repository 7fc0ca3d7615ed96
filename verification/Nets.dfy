/**
  Spend bounds that do not ask who settles what: dollars spent and a floor for each admission,
  less a floor for each record, release and forced call. A fallback may be told of the end of a
  call another admitted, so calls out are not counted by any one of them.
 */
module Nets {
  import opened Money
  import opened Control
  import opened Histories

  lemma OneAdmitted(f: real, cap: real, spent: real, n: nat, given: real, k: nat, q: real)
    requires Within(f, cap, spent, n, given, k, q) && f >= 0.0
    ensures q < cap ==> Within(f, cap, spent, n + 1, given, k, q + f)
    ensures Within(f, cap, spent, n + 1, given + f, k, q + f)
  {
    assert Copies(n + 1, f) == Copies(n, f) + f;
    assert Copies(k + 1, cap + f) == Copies(k, cap + f) + (cap + f);
  }

  lemma OneSettled(f: real, cap: real, spent: real, n: nat, given: real, k: nat, q: real, cost: real, q': real)
    requires Within(f, cap, spent, n, given, k, q) && cost <= f && q' >= q + cost - f
    ensures Within(f, cap, spent + cost, n, given + f, k, q')
  {
  }

  lemma Cleared(f: real, cap: real, spent: real, n: nat, given: real, k: nat, q: real)
    requires Within(f, cap, spent, n, given, k, q) && f >= 0.0 && cap >= 0.0
    ensures Within(f, cap, spent, n, given, k + 1, 0.0)
  {
    assert Copies(k + 2, cap + f) == Copies(k + 1, cap + f) + (cap + f);
  }

  /** What is taken off: a floor for each record, release and forced call. */
  function Given(f: real, recorded: nat, released: nat, forced: nat): real {
    Copies(recorded, f) + Copies(released, f) + Copies(forced, f)
  }

  /** What live tallies show: settled spend, and a floor for each call in flight. */
  function Showing(f: real, spend: real, inflight: nat): real {
    spend + Copies(inflight, f)
  }

  lemma OneLess(f: real, spend: real, inflight: nat, cost: real)
    requires f >= 0.0 && cost >= 0.0
    ensures Showing(f, spend + cost, Dec(inflight)) >= Showing(f, spend, inflight) + cost - f
  {
  }

  /** Reservations wiped on their own are taken off as they go. */
  lemma SomeWiped(f: real, cap: real, spent: real, n: nat, given: real, k: nat, spend: real, inflight: nat, w: nat)
    requires w <= inflight && Within(f, cap, spent, n, given, k, Showing(f, spend, inflight)) && f >= 0.0
    ensures Within(f, cap, spent, n, given + Copies(w, f), k, Showing(f, spend, inflight - w))
  {
    CopiesAdd(inflight - w, w, f);
    CopiesOrder(w, f);
  }

  /** The inequality in products. */
  lemma InProducts(f: real, cap: real, spent: real, n: nat, recorded: nat, released: nat, forced: nat, k: nat, q: real)
    requires Within(f, cap, spent, n, Given(f, recorded, released, forced), k, q) && cap > 0.0
    ensures spent + f * (n - recorded - released) as real < (cap + f) * (k + 1) as real + f * forced as real
  {
    CopiesIsProduct(n, f);
    CopiesIsProduct(recorded, f);
    CopiesIsProduct(released, f);
    CopiesIsProduct(forced, f);
    CopiesIsProduct(k + 1, cap + f);
    Distributes(f, n as real, recorded as real, released as real);
  }

  lemma Distributes(f: real, a: real, b: real, c: real)
    ensures f * (a - b - c) == f * a - f * b - f * c
  {
  }

  lemma Added(f: real, g: real, a: int, b: int, k: nat, m: nat, x: nat, y: nat)
    ensures f * (a + b) as real == f * a as real + f * b as real
    ensures g * (k + m) as real == g * k as real + g * m as real
    ensures f * (x + y) as real == f * x as real + f * y as real
  {
  }

  // A key's total: its history against its live tallies of calls, dollars and calls in flight.

  ghost predicate TotalNet(f: real, cap: real, l: Ledger, calls: nat, spend: real, inflight: nat) {
    && 0.0 <= spend <= Copies(calls, f)
    && Within(f, cap, l.spent, l.admitted, Given(f, l.recorded, l.released, l.bypassed + l.wiped), l.clearances,
              Showing(f, spend, inflight))
  }

  lemma TotalAdmitted(f: real, cap: real, l: Ledger, calls: nat, spend: real, inflight: nat)
    requires f >= 0.0 && TotalNet(f, cap, l, calls, spend, inflight)
    ensures TotalNet(f, cap, l.(admitted := l.admitted + 1, bypassed := l.bypassed + 1), calls, spend, inflight + 1)
    ensures Showing(f, spend, inflight) < cap ==>
              TotalNet(f, cap, l.(admitted := l.admitted + 1), calls, spend, inflight + 1)
  {
    hide Within;
    var given := Given(f, l.recorded, l.released, l.bypassed + l.wiped);
    OneAdmitted(f, cap, l.spent, l.admitted, given, l.clearances, Showing(f, spend, inflight));
    assert Showing(f, spend, inflight + 1) == Showing(f, spend, inflight) + f;
    assert Given(f, l.recorded, l.released, l.bypassed + l.wiped + 1) == given + f;
  }

  lemma TotalSettled(f: real, cap: real, l: Ledger, calls: nat, spend: real, inflight: nat, cost: real)
    requires f >= 0.0 && 0.0 <= cost <= f && TotalNet(f, cap, l, calls, spend, inflight)
    ensures TotalNet(f, cap, l.(recorded := l.recorded + 1, spent := l.spent + cost), calls + 1, spend + cost, Dec(inflight))
    ensures TotalNet(f, cap, l.(released := l.released + 1), calls, spend, Dec(inflight))
  {
    hide Within;
    var given := Given(f, l.recorded, l.released, l.bypassed + l.wiped);
    OneLess(f, spend, inflight, cost);
    OneLess(f, spend, inflight, 0.0);
    OneSettled(f, cap, l.spent, l.admitted, given, l.clearances, Showing(f, spend, inflight), cost,
               Showing(f, spend + cost, Dec(inflight)));
    OneSettled(f, cap, l.spent, l.admitted, given, l.clearances, Showing(f, spend, inflight), 0.0,
               Showing(f, spend, Dec(inflight)));
    assert Given(f, l.recorded + 1, l.released, l.bypassed + l.wiped) == given + f;
    assert Given(f, l.recorded, l.released + 1, l.bypassed + l.wiped) == given + f;
    assert Copies(calls + 1, f) == Copies(calls, f) + f;
  }

  lemma TotalWiped(f: real, cap: real, l: Ledger, calls: nat, spend: real, inflight: nat, w: nat)
    requires f >= 0.0 && w <= inflight && TotalNet(f, cap, l, calls, spend, inflight)
    ensures TotalNet(f, cap, l.(wiped := l.wiped + w), calls, spend, inflight - w)
  {
    hide Within;
    var given := Given(f, l.recorded, l.released, l.bypassed + l.wiped);
    SomeWiped(f, cap, l.spent, l.admitted, given, l.clearances, spend, inflight, w);
    CopiesAdd(l.bypassed + l.wiped, w, f);
    assert Given(f, l.recorded, l.released, l.bypassed + (l.wiped + w)) == given + Copies(w, f);
  }

  lemma TotalCleared(f: real, cap: real, l: Ledger, calls: nat, spend: real, inflight: nat)
    requires f >= 0.0 && cap >= 0.0 && TotalNet(f, cap, l, calls, spend, inflight)
    ensures TotalNet(f, cap, l.(clearances := l.clearances + 1), 0, 0.0, 0)
  {
    hide Within;
    Cleared(f, cap, l.spent, l.admitted, Given(f, l.recorded, l.released, l.bypassed + l.wiped), l.clearances,
            Showing(f, spend, inflight));
  }

  lemma TotalFresh(f: real, cap: real)
    requires f >= 0.0 && cap >= 0.0
    ensures TotalNet(f, cap, NEW_LEDGER, 0, 0.0, 0)
  {
    assert Copies(1, cap + f) == cap + f;
  }

  /** The bound a history keeps. */
  ghost predicate Bounded(f: real, cap: real, l: Ledger, grantors: nat) {
    l.spent + f * (l.admitted - l.recorded - l.released) as real
    < (cap + f) * (l.clearances + grantors) as real + f * (l.bypassed + l.wiped) as real
  }

  lemma TotalBounded(f: real, cap: real, l: Ledger, calls: nat, spend: real, inflight: nat)
    requires cap > 0.0 && TotalNet(f, cap, l, calls, spend, inflight)
    ensures Bounded(f, cap, l, 1)
  {
    hide Within, Given;
    InProducts(f, cap, l.spent, l.admitted, l.recorded, l.released, l.bypassed + l.wiped, l.clearances,
               Showing(f, spend, inflight));
  }
}

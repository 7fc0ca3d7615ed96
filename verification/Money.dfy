/**
  Dollar figures in micro-dollars. A tally is a real number of micro-dollars (what the
  floats of the gateway stand for, without their rounding); a figure the shared store
  keeps, and every figure a cap is compared at, is a whole number of them.
 */
module Money {

  /** The whole micro-dollars nearest to v, halves away from zero. */
  function Micro(v: real): int {
    if v >= 0.0 then (v + 0.5).Floor else -((0.5 - v).Floor)
  }

  /** True if v is a whole number of micro-dollars, so that Micro loses nothing. */
  predicate Whole(v: real) {
    Micro(v) as real == v
  }

  /** What one call in flight is reserved at: the average so far, or the floor if that is higher. */
  function PerCall(floor: real, spend: real, calls: nat): real {
    if calls > 0 && spend / calls as real > floor then spend / calls as real else floor
  }

  /** What the calls in flight are reserved at together. */
  function Reserved(floor: real, spend: real, calls: nat, inflight: nat): real {
    PerCall(floor, spend, calls) * inflight as real
  }

  function Projected(floor: real, spend: real, calls: nat, inflight: nat): real {
    spend + Reserved(floor, spend, calls, inflight)
  }

  /** n amounts of v. Spelled out by addition, which the solver follows better than a product. */
  function Copies(n: nat, v: real): real {
    if n == 0 then 0.0 else Copies(n - 1, v) + v
  }

  function Allowances(n: nat, m: int): int {
    if n == 0 then 0 else Allowances(n - 1, m) + m
  }

  function Min(a: int, b: int): int {
    if a <= b then a else b
  }

  /** a does not pass b, and stays below it where `strictly` says so. */
  predicate Under(a: real, b: real, strictly: bool) {
    a <= b && (strictly ==> a < b)
  }

  /**
    Dollars spent and a floor f for each call out, less what is excused, against an allowance
    of cap + f for each of k clearances: what is left over is covered by what the live tallies
    q show, and by one more allowance.
   */
  ghost predicate Within(f: real, cap: real, spent: real, out: nat, excused: real, k: nat, q: real) {
    var v := spent + Copies(out, f) - excused;
    v <= Copies(k, cap + f) + q && Under(v, Copies(k + 1, cap + f), cap > 0.0)
  }

  lemma {:induction false} CopiesIsProduct(n: nat, v: real)
    ensures Copies(n, v) == v * n as real
  {
    if n > 0 {
      CopiesIsProduct(n - 1, v);
      assert v * n as real == v * (n - 1) as real + v;
    }
  }

  lemma {:induction false} AllowancesIsProduct(n: nat, m: int)
    ensures Allowances(n, m) == n * m
  {
    if n > 0 {
      AllowancesIsProduct(n - 1, m);
      assert n * m == (n - 1) * m + m;
    }
  }

  lemma WholeNumber(n: int)
    ensures Whole(n as real) && Micro(n as real) == n
  {
  }

  lemma WholeSum(a: real, b: real)
    requires Whole(a) && Whole(b)
    ensures Whole(a + b)
  {
    hide Micro;
    WholeNumber(Micro(a) + Micro(b));
  }

  lemma MicroMonotone(a: real, b: real)
    requires a <= b
    ensures Micro(a) <= Micro(b)
  {
  }

  /** Below a cap at micro-dollar precision means below its rounded figure exactly. */
  lemma BelowCap(v: real, cap: real)
    requires Micro(v) < Micro(cap)
    ensures v < Micro(cap) as real
  {
  }

  /** While no call ever cost more than the floor, the floor is what each call is reserved at. */
  lemma FloorIsReserved(floor: real, spend: real, calls: nat, inflight: nat)
    requires spend <= Copies(calls, floor)
    ensures Projected(floor, spend, calls, inflight) == spend + Copies(inflight, floor)
  {
    CopiesIsProduct(calls, floor);
    CopiesIsProduct(inflight, floor);
    if calls > 0 {
      assert spend / calls as real <= floor;
    }
  }

  lemma {:induction false} CopiesAdd(m: nat, n: nat, v: real)
    ensures Copies(m + n, v) == Copies(m, v) + Copies(n, v)
  {
    if n > 0 {
      CopiesAdd(m, n - 1, v);
    }
  }

  lemma {:induction false} CopiesOrder(n: nat, v: real)
    requires v >= 0.0
    ensures Copies(n, v) >= 0.0
  {
    if n > 0 {
      CopiesOrder(n - 1, v);
    }
  }
}

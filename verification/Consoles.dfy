/**
  The dashboard's figures: spend by team, agent, model and day from what was metered, one line
  for what a bill has beyond it, and how they reconcile with the report's total.
 */
module Consoles {
  import opened Sums
  import opened Reports
  import Control

  /** A provider's month, as rows are billed. */
  datatype Month = Month(provider: string, period: string)

  function MonthOf(e: Event): Month {
    Month(e.provider, e.period)
  }

  function TeamOf(e: Event): string {
    if e.tags.team != "" then e.tags.team else "(untagged)"
  }

  function AgentOf(e: Event): string {
    if e.tags.agent != "" then e.tags.agent else "(untagged)"
  }

  function DayOf(e: Event): nat {
    Control.DayOf(e.startsAt)
  }

  const UNMETERED := "(billed, not metered)"

  predicate IsMetered(e: Event) {
    !IsCostRow(e)
  }

  function MeteredIn(evs: seq<Event>): set<Month> {
    set e | e in evs && IsMetered(e) :: MonthOf(e)
  }

  /** Every metered row; and a bill's, where its provider-month has no metered row. */
  function Attributed(months: set<Month>): Event -> bool {
    e => IsMetered(e) || MonthOf(e) !in months
  }

  /** Metered, on a day the provider's own bill covers. */
  function Estimated(cov: Coverage): Event -> bool {
    e => IsMetered(e) && CellOf(e) in cov
  }

  function Attributable(evs: seq<Event>): seq<Event> {
    Filter(evs, Attributed(MeteredIn(evs)))
  }

  /** What each provider billed, by month. */
  function Billed(evs: seq<Event>): map<Month, real> {
    Tallied(Filter(evs, IsCostRow), MonthOf, CostOf)
  }

  /** What was metered on days a bill covers, by month. */
  function CoveredEstimate(evs: seq<Event>, cov: Coverage): map<Month, real> {
    Tallied(Filter(evs, Estimated(cov)), MonthOf, CostOf)
  }

  /** What a metered month's bill has beyond the estimate it covers. */
  function Beyond(billed: map<Month, real>, est: map<Month, real>, months: set<Month>): Month -> real {
    k => if k in billed && k in months && billed[k] > At(est, k) then billed[k] - At(est, k) else 0.0
  }

  /** The line for what was billed and not metered, if there is any. */
  function WithUnmetered(lines: map<string, real>, unmetered: real): map<string, real> {
    if unmetered > 0.0 then Plus(lines, UNMETERED, unmetered) else lines
  }

  datatype Summary = Summary(
    total: real, unmetered: real,
    byTeam: map<string, real>, byAgent: map<string, real>, byModel: map<string, real>, byDay: map<nat, real>)

  ghost function SummaryOn(evs: seq<Event>, cov: Coverage): Summary {
    var rows, months := Attributable(evs), MeteredIn(evs);
    var billed := Billed(evs);
    var unmetered := SumOver(billed.Keys, Beyond(billed, CoveredEstimate(evs, cov), months));
    Summary(ReportOn(Counting(evs, cov)).total, unmetered,
            WithUnmetered(Tallied(rows, TeamOf, CostOf), unmetered), WithUnmetered(Tallied(rows, AgentOf, CostOf), unmetered),
            Tallied(rows, ModelOf, CostOf), Tallied(rows, DayOf, CostOf))
  }

  ghost predicate IsSummary(evs: seq<Event>, s: Summary) {
    exists cov :: IsCoverage(evs, cov) && s == SummaryOn(evs, cov)
  }

  // Reconciliation.

  /**
    How far a metered month's bars stand above what it adds to the total: by what its estimate
    has beyond its bill. (A month may have an estimate covered by a bill of another month.)
   */
  function Excess(billed: map<Month, real>, est: map<Month, real>, months: set<Month>): Month -> real {
    k =>
      if k !in months then 0.0
      else if k in billed then (if At(est, k) > billed[k] then At(est, k) - billed[k] else 0.0)
      else At(est, k)
  }

  function Months(evs: seq<Event>): set<Month> {
    set e | e in evs :: MonthOf(e)
  }

  /** One month's share of a sum over the events kept. */
  function ShareOf(evs: seq<Event>, keep: Event -> bool): Month -> real {
    k => SumBy(evs, On(MonthOf, If(keep, CostOf), k))
  }

  lemma SharesAddUp(evs: seq<Event>, keep: Event -> bool)
    ensures SumOver(Months(evs), ShareOf(evs, keep)) == SumBy(Filter(evs, keep), CostOf)
  {
    Grouped(evs, Months(evs), MonthOf, If(keep, CostOf), ShareOf(evs, keep));
    SumFiltered(evs, keep, CostOf);
  }

  lemma LineIsShare(evs: seq<Event>, keep: Event -> bool, k: Month)
    ensures At(Tallied(Filter(evs, keep), MonthOf, CostOf), k) == ShareOf(evs, keep)(k)
  {
    LineIs(Filter(evs, keep), MonthOf, CostOf, k);
    SumFiltered(evs, keep, On(MonthOf, CostOf, k));
    SumSame(evs, If(keep, On(MonthOf, CostOf, k)), On(MonthOf, If(keep, CostOf), k));
  }

  /** In a metered month the bars show what was metered; the total has the bill, and what was metered but not covered. */
  lemma MeteredMonth(evs: seq<Event>, cov: Coverage, k: Month)
    requires k in MeteredIn(evs)
    ensures ShareOf(evs, Attributed(MeteredIn(evs)))(k) + ShareOf(evs, IsCostRow)(k)
         == ShareOf(evs, Counts(cov))(k) + ShareOf(evs, Estimated(cov))(k)
  {
    var bars := On(MonthOf, If(Attributed(MeteredIn(evs)), CostOf), k);
    var bill, total := On(MonthOf, If(IsCostRow, CostOf), k), On(MonthOf, If(Counts(cov), CostOf), k);
    var est := On(MonthOf, If(Estimated(cov), CostOf), k);
    var both: Event -> real := e => bars(e) + bill(e);
    SumAdds(evs, bars, bill, both);
    SumAdds(evs, total, est, both);
  }

  /** In a month with no metered row the bars and the total both show the bill. */
  lemma BillOnlyMonth(evs: seq<Event>, cov: Coverage, k: Month)
    requires k !in MeteredIn(evs)
    ensures ShareOf(evs, Attributed(MeteredIn(evs)))(k) == ShareOf(evs, Counts(cov))(k)
  {
    var bars, total := On(MonthOf, If(Attributed(MeteredIn(evs)), CostOf), k), On(MonthOf, If(Counts(cov), CostOf), k);
    forall e | e in evs ensures bars(e) == total(e) {
      assert IsMetered(e) ==> MonthOf(e) in MeteredIn(evs);
    }
    SumSame(evs, bars, total);
  }

  lemma MonthReconciles(evs: seq<Event>, cov: Coverage, k: Month)
    ensures
      var billed, est, months := Billed(evs), CoveredEstimate(evs, cov), MeteredIn(evs);
      ShareOf(evs, Attributed(months))(k) + Beyond(billed, est, months)(k)
      == ShareOf(evs, Counts(cov))(k) + Excess(billed, est, months)(k)
  {
    hide ShareOf, Attributed, Counts, Estimated, IsCostRow, MeteredIn, Tallied;
    LineIsShare(evs, IsCostRow, k);
    LineIsShare(evs, Estimated(cov), k);
    if k in MeteredIn(evs) {
      MeteredMonth(evs, cov, k);
    } else {
      BillOnlyMonth(evs, cov, k);
    }
  }

  lemma BilledMonths(evs: seq<Event>)
    ensures Billed(evs).Keys <= Months(evs)
  {
    forall k | k in Billed(evs) ensures k in Months(evs) {
      LineIs(Filter(evs, IsCostRow), MonthOf, CostOf, k);
      FilterSubset(evs, IsCostRow);
    }
  }

  lemma {:induction false} FilterSubset<T>(xs: seq<T>, keep: T -> bool)
    ensures forall x <- Filter(xs, keep) :: x in xs
  {
    if xs != [] {
      FilterSubset(xs[..|xs| - 1], keep);
    }
  }

  /** A sum over some of the keys, of what is nothing on the others. */
  lemma {:induction false} SumOverMore<K(!new)>(few: set<K>, all: set<K>, f: K -> real)
    requires few <= all && forall k <- all - few :: f(k) == 0.0
    ensures SumOver(all, f) == SumOver(few, f)
    decreases |few|
  {
    if few == {} {
      SumOverZero(all, f);
    } else {
      var k :| k in few;
      SumSplit(few, f, k);
      SumSplit(all, f, k);
      assert all - {k} - (few - {k}) == all - few;
      SumOverMore(few - {k}, all - {k}, f);
    }
  }

  /** All months together. */
  lemma AllMonths(evs: seq<Event>, cov: Coverage, s: Summary)
    requires s == SummaryOn(evs, cov)
    ensures SumBy(Attributable(evs), CostOf) + s.unmetered
         == s.total + SumOver(MeteredIn(evs), Excess(Billed(evs), CoveredEstimate(evs, cov), MeteredIn(evs)))
  {
    hide ShareOf, Attributed, Counts, Estimated, IsCostRow, Billed, CoveredEstimate, Tallied, Filter;
    var billed, est, months, all := Billed(evs), CoveredEstimate(evs, cov), MeteredIn(evs), Months(evs);
    var bars, beyond := ShareOf(evs, Attributed(months)), Beyond(billed, est, months);
    var total, excess := ShareOf(evs, Counts(cov)), Excess(billed, est, months);
    var both: Month -> real := k => bars(k) + beyond(k);
    forall k | k in all ensures both(k) == total(k) + excess(k) {
      MonthReconciles(evs, cov, k);
    }
    SumOverAdds(all, bars, beyond, both);
    SumOverAdds(all, total, excess, both);
    SharesAddUp(evs, Attributed(months));
    SharesAddUp(evs, Counts(cov));
    BilledMonths(evs);
    SumOverMore(billed.Keys, all, beyond);
    SumOverMore(months, all, excess);
  }

  lemma UnmeteredNotNegative(evs: seq<Event>, cov: Coverage)
    ensures SummaryOn(evs, cov).unmetered >= 0.0
  {
    var billed := Billed(evs);
    SumOverNotNegative(billed.Keys, Beyond(billed, CoveredEstimate(evs, cov), MeteredIn(evs)));
  }

  lemma UnmeteredAdds(lines: map<string, real>, unmetered: real)
    requires unmetered >= 0.0
    ensures SumMap(WithUnmetered(lines, unmetered)) == SumMap(lines) + unmetered
  {
    if unmetered > 0.0 {
      PlusAdds(lines, UNMETERED, unmetered);
    }
  }

  /**
    The bars reconcile: by team and by agent they add up to the same, which is the total and,
    over every metered month, what its covered estimate has beyond its bill. By day and by model they
    add up to as much without the line for what was billed and not metered.
   */
  lemma {:induction false} BarsReconcile(evs: seq<Event>, cov: Coverage, s: Summary)
    requires IsCoverage(evs, cov) && IsSummary(evs, s)
    ensures SumMap(s.byTeam) == SumMap(s.byAgent)
         == s.total + SumOver(MeteredIn(evs), Excess(Billed(evs), CoveredEstimate(evs, cov), MeteredIn(evs)))
    ensures SumMap(s.byDay) == SumMap(s.byModel) == SumMap(s.byTeam) - s.unmetered
  {
    hide Tallied, Filter, Billed, CoveredEstimate, Beyond, Excess, IsCoverage, WithUnmetered;
    var c :| IsCoverage(evs, c) && s == SummaryOn(evs, c);
    OneCoverage(evs, c, cov);
    var rows := Attributable(evs);
    LinesAddUp(rows, TeamOf, CostOf);
    LinesAddUp(rows, AgentOf, CostOf);
    LinesAddUp(rows, ModelOf, CostOf);
    LinesAddUp(rows, DayOf, CostOf);
    UnmeteredNotNegative(evs, cov);
    UnmeteredAdds(Tallied(rows, TeamOf, CostOf), s.unmetered);
    UnmeteredAdds(Tallied(rows, AgentOf, CostOf), s.unmetered);
    AllMonths(evs, cov, s);
  }

  /** No metered month without a bill of its own has a covered estimate below nought. */
  ghost predicate NoneOwedBack(evs: seq<Event>, cov: Coverage) {
    forall k <- MeteredIn(evs) :: k !in Billed(evs) ==> At(CoveredEstimate(evs, cov), k) >= 0.0
  }

  /** It is enough that no metered call has a negative cost. */
  lemma NoNegativeCosts(evs: seq<Event>, cov: Coverage)
    requires forall e <- evs :: IsMetered(e) ==> e.cost >= 0.0
    ensures NoneOwedBack(evs, cov)
  {
    forall k | k in MeteredIn(evs) ensures At(CoveredEstimate(evs, cov), k) >= 0.0 {
      LineIsShare(evs, Estimated(cov), k);
      SumNotNegative(evs, On(MonthOf, If(Estimated(cov), CostOf), k));
    }
  }

  /**
    The bars then never fall below the total, and equal it exactly when no bill is under the
    estimate it covers.
   */
  lemma {:induction false} BarsNeverBelowTotal(evs: seq<Event>, cov: Coverage, s: Summary)
    requires IsCoverage(evs, cov) && IsSummary(evs, s)
    requires NoneOwedBack(evs, cov)
    ensures SumMap(s.byTeam) >= s.total
    ensures SumMap(s.byTeam) == s.total
       <==> forall k <- MeteredIn(evs) :: At(CoveredEstimate(evs, cov), k) <= At(Billed(evs), k)
  {
    hide Billed, CoveredEstimate, IsCoverage, IsSummary, MeteredIn, SumMap;
    BarsReconcile(evs, cov, s);
    var billed, est, months := Billed(evs), CoveredEstimate(evs, cov), MeteredIn(evs);
    var excess := Excess(billed, est, months);
    assert forall k <- months :: excess(k) >= 0.0 && (excess(k) == 0.0 <==> At(est, k) <= At(billed, k));
    SumOverNotNegative(months, excess);
    if k :| k in months && excess(k) > 0.0 {
      SumOverPositive(months, excess, k);
    } else {
      SumOverZero(months, excess);
    }
  }

  /** A month billed at one dollar, all of it covered, of which two dollars were metered. */
  const BILL := Event("p", "", "2024-05", NO_USAGE, NO_TAGS, 1.0, ProviderReported, 0, Control.DAY)
  const METERED_ROW := Event("p", "m", "2024-05", NO_USAGE.(input := 1), NO_TAGS, 2.0, Reports.Estimated, 0, 0)
  const LEDGER := [BILL, METERED_ROW]

  lemma LedgerShares(cov: Coverage)
    requires IsCoverage(LEDGER, cov)
    ensures
      var k := MonthOf(BILL);
      k in MeteredIn(LEDGER) && At(Billed(LEDGER), k) == 1.0 && At(CoveredEstimate(LEDGER, cov), k) == 2.0
  {
    var k := MonthOf(BILL);
    assert LEDGER[1] in LEDGER && IsMetered(METERED_ROW);
    assert CellOf(METERED_ROW) in cov by {
      assert LEDGER[0] in LEDGER && CoversDay(BILL, 0);
      assert IsCovered(LEDGER, CellOf(METERED_ROW));
    }
    LineIsShare(LEDGER, IsCostRow, k);
    LineIsShare(LEDGER, Estimated(cov), k);
    TwoRows(On(MonthOf, If(IsCostRow, CostOf), k));
    TwoRows(On(MonthOf, If(Estimated(cov), CostOf), k));
    assert MonthOf(LEDGER[1]) == k;
  }

  lemma TwoRows(f: Event -> real)
    ensures SumBy(LEDGER, f) == f(BILL) + f(METERED_ROW)
  {
    assert LEDGER[..|LEDGER| - 1] == [BILL];
    assert SumBy([BILL], f) == SumBy([BILL][..0], f) + f(BILL);
  }

  /** Its bars stand above its total, which they are said to add up to. */
  lemma BarsCanStandAboveTotal(cov: Coverage, s: Summary)
    requires IsCoverage(LEDGER, cov) && IsSummary(LEDGER, s)
    ensures SumMap(s.byTeam) > s.total
  {
    hide SumMap, IsSummary, Billed, CoveredEstimate;
    LedgerShares(cov);
    NoNegativeCosts(LEDGER, cov);
    BarsNeverBelowTotal(LEDGER, cov, s);
  }

  /** The tag a bar goes by: its rows', or that they have none. */
  function TagOr(tag: string): string {
    if tag == "" then "(untagged)" else tag
  }

  /** A bar by team, agent, model or day is what the rows attributed to it add up to, the unmetered line aside. */
  lemma {:induction false} BarsAreOf(evs: seq<Event>, s: Summary, name: string, day: nat)
    requires IsSummary(evs, s) && name != "(billed, not metered)"
    ensures At(s.byTeam, name) == SumBy(Attributable(evs), (e: Event) => if TagOr(e.tags.team) == name then e.cost else 0.0)
    ensures At(s.byAgent, name) == SumBy(Attributable(evs), (e: Event) => if TagOr(e.tags.agent) == name then e.cost else 0.0)
    ensures At(s.byDay, day) == SumBy(Attributable(evs), (e: Event) => if e.startsAt / Control.DAY == day then e.cost else 0.0)
  {
    hide SumBy, Tallied, Attributable;
    var rows := Attributable(evs);
    LineIs(rows, TeamOf, CostOf, name);
    LineIs(rows, AgentOf, CostOf, name);
    LineIs(rows, DayOf, CostOf, day);
    SumSame(rows, On(TeamOf, CostOf, name), (e: Event) => if TagOr(e.tags.team) == name then e.cost else 0.0);
    SumSame(rows, On(AgentOf, CostOf, name), (e: Event) => if TagOr(e.tags.agent) == name then e.cost else 0.0);
    SumSame(rows, On(DayOf, CostOf, day), (e: Event) => if e.startsAt / Control.DAY == day then e.cost else 0.0);
  }

  // The loops.

  /** The months with a metered row. */
  method MeteredMonths(evs: seq<Event>) returns (months: set<Month>)
    ensures months == MeteredIn(evs)
  {
    months := {};
    var i := 0;
    while i < |evs|
      invariant 0 <= i <= |evs| && months == MeteredIn(evs[..i])
    {
      assert evs[..i + 1] == evs[..i] + [evs[i]];
      if IsMetered(evs[i]) {
        months := months + {MonthOf(evs[i])};
      }
      i := i + 1;
    }
    assert evs[..i] == evs;
  }

  /** Sorts the rows: what was billed, what was metered under a bill, and what is attributed. */
  method Sort(evs: seq<Event>, months: set<Month>, cov: Coverage)
    returns (billed: map<Month, real>, est: map<Month, real>, rows: seq<Event>)
    ensures billed == Billed(evs) && est == CoveredEstimate(evs, cov) && rows == Filter(evs, Attributed(months))
  {
    hide Filter, Tallied, Plus;
    billed, est, rows := map[], map[], [];
    NothingYet(evs, months, cov);
    var i := 0;
    while i < |evs|
      invariant 0 <= i <= |evs|
      invariant billed == Billed(evs[..i]) && est == CoveredEstimate(evs[..i], cov)
      invariant rows == Filter(evs[..i], Attributed(months))
    {
      hide Billed, CoveredEstimate;
      var e := evs[i];
      SortGrows(evs, months, cov, i);
      if IsCostRow(e) {
        billed := Plus(billed, MonthOf(e), e.cost);
        if MonthOf(e) !in months {
          rows := rows + [e];
        }
      } else {
        rows := rows + [e];
        if CellOf(e) in cov {
          est := Plus(est, MonthOf(e), e.cost);
        }
      }
      i := i + 1;
    }
    assert evs[..i] == evs;
  }

  lemma NothingYet(evs: seq<Event>, months: set<Month>, cov: Coverage)
    ensures Billed(evs[..0]) == map[] && CoveredEstimate(evs[..0], cov) == map[] && Filter(evs[..0], Attributed(months)) == []
  {
  }

  lemma SortGrows(evs: seq<Event>, months: set<Month>, cov: Coverage, i: nat)
    requires i < |evs|
    ensures
      var before, after, e := evs[..i], evs[..i + 1], evs[i];
      && Billed(after) == (if IsCostRow(e) then Plus(Billed(before), MonthOf(e), e.cost) else Billed(before))
      && CoveredEstimate(after, cov)
         == (if IsMetered(e) && CellOf(e) in cov then Plus(CoveredEstimate(before, cov), MonthOf(e), e.cost)
             else CoveredEstimate(before, cov))
      && Filter(after, Attributed(months))
         == (if IsMetered(e) || MonthOf(e) !in months then Filter(before, Attributed(months)) + [e]
             else Filter(before, Attributed(months)))
  {
    hide Filter, Tallied, Plus, IsCostRow;
    var before, e := evs[..i], evs[i];
    FilterGrows(evs, IsCostRow, i);
    FilterGrows(evs, Estimated(cov), i);
    FilterGrows(evs, Attributed(months), i);
    TalliedGrows(Filter(before, IsCostRow), MonthOf, CostOf, e);
    TalliedGrows(Filter(before, Estimated(cov)), MonthOf, CostOf, e);
    assert Filter(before, IsCostRow) + [] == Filter(before, IsCostRow);
    assert Filter(before, Estimated(cov)) + [] == Filter(before, Estimated(cov));
    assert Filter(before, Attributed(months)) + [] == Filter(before, Attributed(months));
  }

  /** One line per key, row by row. */
  method Lines<K(==)>(rows: seq<Event>, keyOf: Event -> K) returns (lines: map<K, real>)
    ensures lines == Tallied(rows, keyOf, CostOf)
  {
    lines := map[];
    var i := 0;
    while i < |rows|
      invariant 0 <= i <= |rows| && lines == Tallied(rows[..i], keyOf, CostOf)
    {
      assert rows[..i + 1] == rows[..i] + [rows[i]];
      TalliedGrows(rows[..i], keyOf, CostOf, rows[i]);
      lines := Plus(lines, keyOf(rows[i]), rows[i].cost);
      i := i + 1;
    }
    assert rows[..i] == rows;
  }

  /** What the bills of metered months have beyond what they cover; in what order makes no difference. */
  method Unmetered(billed: map<Month, real>, est: map<Month, real>, months: set<Month>) returns (unmetered: real)
    ensures unmetered == SumOver(billed.Keys, Beyond(billed, est, months))
  {
    unmetered := 0.0;
    var todo := billed.Keys;
    while todo != {}
      invariant todo <= billed.Keys
      invariant unmetered + SumOver(todo, Beyond(billed, est, months)) == SumOver(billed.Keys, Beyond(billed, est, months))
      decreases |todo|
    {
      var k :| k in todo;
      SumSplit(todo, Beyond(billed, est, months), k);
      if k in months && billed[k] > At(est, k) {
        unmetered := unmetered + billed[k] - At(est, k);
      }
      todo := todo - {k};
    }
  }

  method SummaryOf(evs: seq<Event>) returns (s: Summary)
    ensures IsSummary(evs, s)
  {
    hide Tallied, Filter, Plus, Beyond, SumOver;
    var report := Build(evs);
    var months := MeteredMonths(evs);
    var cov := CostCoverage(evs);
    ghost var c :| IsCoverage(evs, c) && report == ReportOn(Counting(evs, c));
    OneCoverage(evs, c, cov);
    var billed, est, rows := Sort(evs, months, cov);
    var byTeam := Lines(rows, TeamOf);
    var byAgent := Lines(rows, AgentOf);
    var unmetered := Unmetered(billed, est, months);
    if unmetered > 0.0 {
      byTeam := Plus(byTeam, UNMETERED, unmetered);
      byAgent := Plus(byAgent, UNMETERED, unmetered);
    }
    var byDay := Lines(rows, DayOf);
    var byModel := Lines(rows, ModelOf);
    s := Summary(report.total, unmetered, byTeam, byAgent, byModel, byDay);
    assert s == SummaryOn(evs, cov);
  }
}

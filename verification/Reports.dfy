/**
  The report: which ledger events count toward the total, and the lines that add up to it.
  Times are nanoseconds since the zero time, in UTC; dollars are exact.
 */
module Reports {
  import opened Sums
  import Control

  /** Where a figure comes from, least reliable first; one that does not say ranks with estimates. */
  datatype Confidence = Unstated | Estimated | ProviderReported | InvoiceReconciled | Final

  function Rank(c: Confidence): nat {
    match c
    case Unstated => 0
    case Estimated => 0
    case ProviderReported => 1
    case InvoiceReconciled => 2
    case Final => 3
  }

  datatype Usage = Usage(input: int, cacheRead: int, cacheWrite5m: int, cacheWrite1h: int, output: int, requests: int)

  const NO_USAGE := Usage(0, 0, 0, 0, 0, 0)

  datatype Tags = Tags(team: string, project: string, customer: string, agent: string, run: string)

  const NO_TAGS := Tags("", "", "", "", "")

  datatype Event = Event(
    provider: string, model: string, period: string, usage: Usage, tags: Tags,
    cost: real, confidence: Confidence, startsAt: nat, endsAt: nat)

  function CostOf(e: Event): real {
    e.cost
  }

  /** Dollars a provider stated, with no tokens metered for them. */
  predicate IsCostRow(e: Event) {
    e.usage == NO_USAGE && Rank(e.confidence) >= Rank(ProviderReported)
  }

  // Coverage.

  const MAX_COVERAGE_DAYS: nat := 400

  /** A provider's day. */
  datatype Cell = Cell(provider: string, day: nat)

  type Coverage = set<Cell>

  function CellOf(e: Event): Cell {
    Cell(e.provider, Control.DayOf(e.startsAt))
  }

  /**
    A cost row covers its start day, and each later day that begins before the row ends, up to
    a limit of days. One that ends where it starts, or earlier, covers its start day alone.
   */
  predicate CoversDay(e: Event, day: nat) {
    var start := Control.DayOf(e.startsAt);
    IsCostRow(e) && start <= day < start + MAX_COVERAGE_DAYS && (day == start || day * Control.DAY < e.endsAt)
  }

  ghost predicate IsCovered(events: seq<Event>, cell: Cell) {
    exists e <- events :: e.provider == cell.provider && CoversDay(e, cell.day)
  }

  ghost predicate IsCoverage(events: seq<Event>, cov: Coverage) {
    forall cell :: cell in cov <==> IsCovered(events, cell)
  }

  /** The days one row covers, one after another. */
  method RowCoverage(e: Event) returns (cov: Coverage)
    requires IsCostRow(e)
    ensures forall cell :: cell in cov <==> cell.provider == e.provider && CoversDay(e, cell.day)
  {
    var start := Control.DayOf(e.startsAt);
    var end := if e.endsAt > start * Control.DAY then e.endsAt else (start + 1) * Control.DAY;
    cov := {};
    var d, n := start, 0;
    while d * Control.DAY < end && n < MAX_COVERAGE_DAYS
      invariant d == start + n && n <= MAX_COVERAGE_DAYS
      invariant forall k :: start <= k < d ==> k * Control.DAY < end
      invariant forall cell :: cell in cov <==> cell.provider == e.provider && start <= cell.day < d
      decreases MAX_COVERAGE_DAYS - n
    {
      cov := cov + {Cell(e.provider, d)};
      d, n := d + 1, n + 1;
    }
  }

  method CostCoverage(events: seq<Event>) returns (cov: Coverage)
    ensures IsCoverage(events, cov)
  {
    cov := {};
    var i := 0;
    while i < |events|
      invariant 0 <= i <= |events| && IsCoverage(events[..i], cov)
    {
      var e := events[i];
      var row := {};
      if IsCostRow(e) {
        row := RowCoverage(e);
      }
      forall cell ensures cell in cov + row <==> IsCovered(events[..i + 1], cell) {
        CoverageGrows(events, i, cell);
      }
      cov := cov + row;
      i := i + 1;
    }
    assert events[..i] == events;
  }

  lemma CoverageGrows(events: seq<Event>, i: nat, cell: Cell)
    requires i < |events|
    ensures IsCovered(events[..i + 1], cell)
        <==> IsCovered(events[..i], cell) || (events[i].provider == cell.provider && CoversDay(events[i], cell.day))
  {
    assert events[..i + 1] == events[..i] + [events[i]];
  }

  // What counts.

  /** Whether an event is part of the total: a bill supersedes what was metered under it. */
  predicate CountsTowardTotal(e: Event, cov: Coverage) {
    IsCostRow(e) || CellOf(e) !in cov
  }

  function Counts(cov: Coverage): Event -> bool {
    e => CountsTowardTotal(e, cov)
  }

  /** The events that count toward the total. */
  function Counting(events: seq<Event>, cov: Coverage): seq<Event> {
    Filter(events, Counts(cov))
  }

  ghost predicate IsIncluded(events: seq<Event>, included: seq<Event>) {
    exists cov :: IsCoverage(events, cov) && included == Counting(events, cov)
  }

  lemma OneCoverage(events: seq<Event>, a: Coverage, b: Coverage)
    requires IsCoverage(events, a) && IsCoverage(events, b)
    ensures a == b
  {
  }

  method Included(events: seq<Event>) returns (out: seq<Event>)
    ensures IsIncluded(events, out)
  {
    var cov := CostCoverage(events);
    out := [];
    var i := 0;
    while i < |events|
      invariant 0 <= i <= |events| && out == Counting(events[..i], cov)
    {
      FilterGrows(events, Counts(cov), i);
      if CountsTowardTotal(events[i], cov) {
        out := out + [events[i]];
      }
      i := i + 1;
    }
    assert events[..i] == events;
  }

  lemma {:induction false} CountingKeeps(events: seq<Event>, cov: Coverage, e: Event)
    ensures multiset(Counting(events, cov))[e] == if CountsTowardTotal(e, cov) then multiset(events)[e] else 0
  {
    if events != [] {
      var before, last := events[..|events| - 1], events[|events| - 1];
      CountingKeeps(before, cov, e);
      assert events == before + [last];
    }
  }

  /**
    An event of the ledger counts exactly when it is a cost row, or no cost row of its provider
    covers its day; and it counts as often as it is there.
   */
  lemma {:induction false} CountsExactly(events: seq<Event>, included: seq<Event>, e: Event)
    requires IsIncluded(events, included)
    ensures multiset(included)[e]
         == if IsCostRow(e)
               || !(exists row <- events :: row.provider == e.provider && CoversDay(row, Control.DayOf(e.startsAt)))
            then multiset(events)[e] else 0
  {
    var cov :| IsCoverage(events, cov) && included == Counting(events, cov);
    CountingKeeps(events, cov, e);
    assert CellOf(e) in cov <==> IsCovered(events, CellOf(e));
  }

  // The report.

  function ProviderOf(e: Event): string {
    e.provider
  }

  function ModelOf(e: Event): string {
    if e.model == "" then "(not grouped by model)" else e.model
  }

  const UNKNOWN := "unknown"

  function Parts(words: seq<string>): seq<string> {
    if words == [] then [] else (if words[0] == "" then [] else [words[0]]) + Parts(words[1..])
  }

  function Join(words: seq<string>): string {
    if words == [] then "" else if |words| == 1 then words[0] else words[0] + " / " + Join(words[1..])
  }

  function OwnerOf(e: Event): string {
    var t := e.tags;
    var customer := if t.customer == "" then [] else ["customer:" + t.customer];
    if t == NO_TAGS then UNKNOWN else Join(Parts([t.team, t.project, t.agent]) + customer)
  }

  datatype Report = Report(
    total: real, unknown: real,
    byProvider: map<string, real>, byOwner: map<string, real>, byModel: map<string, real>)

  function ReportOn(included: seq<Event>): Report {
    Report(SumBy(included, CostOf), SumBy(included, On(OwnerOf, CostOf, UNKNOWN)),
           Tallied(included, ProviderOf, CostOf), Tallied(included, OwnerOf, CostOf), Tallied(included, ModelOf, CostOf))
  }

  ghost predicate IsReport(events: seq<Event>, r: Report) {
    exists cov :: IsCoverage(events, cov) && r == ReportOn(Counting(events, cov))
  }

  lemma ReportGrows(xs: seq<Event>, e: Event)
    ensures
      var r, r' := ReportOn(xs), ReportOn(xs + [e]);
      r' == Report(r.total + e.cost, r.unknown + (if OwnerOf(e) == UNKNOWN then e.cost else 0.0),
                   Plus(r.byProvider, e.provider, e.cost), Plus(r.byOwner, OwnerOf(e), e.cost),
                   Plus(r.byModel, ModelOf(e), e.cost))
  {
    hide OwnerOf, ModelOf, Plus;
    assert (xs + [e])[..|xs|] == xs;
  }

  lemma CountingGrows(events: seq<Event>, cov: Coverage, i: nat)
    requires i < |events|
    ensures Counting(events[..i + 1], cov)
         == Counting(events[..i], cov) + if CountsTowardTotal(events[i], cov) then [events[i]] else []
  {
    FilterGrows(events, Counts(cov), i);
  }

  method Build(events: seq<Event>) returns (r: Report)
    ensures IsReport(events, r)
  {
    hide Counting, OwnerOf, Plus, SumBy, Tallied;
    var cov := CostCoverage(events);
    NothingCounted(cov);
    r := Report(0.0, 0.0, map[], map[], map[]);
    var i := 0;
    while i < |events|
      invariant 0 <= i <= |events| && r == ReportOn(Counting(events[..i], cov))
    {
      hide ReportOn;
      var e := events[i];
      CountingGrows(events, cov, i);
      if CountsTowardTotal(e, cov) {
        ReportGrows(Counting(events[..i], cov), e);
        var owner := OwnerOf(e);
        r := r.(total := r.total + e.cost, byProvider := Plus(r.byProvider, e.provider, e.cost),
                byOwner := Plus(r.byOwner, owner, e.cost));
        if owner == UNKNOWN {
          r := r.(unknown := r.unknown + e.cost);
        }
        var model := e.model;
        if model == "" {
          model := "(not grouped by model)";
        }
        r := r.(byModel := Plus(r.byModel, model, e.cost));
      } else {
        assert Counting(events[..i], cov) + [] == Counting(events[..i], cov);
      }
      i := i + 1;
    }
    assert events[..i] == events;
  }

  lemma NothingCounted(cov: Coverage)
    ensures forall events: seq<Event> :: Counting(events[..0], cov) == []
    ensures ReportOn([]) == Report(0.0, 0.0, map[], map[], map[])
  {
  }

  /**
    The lines add up: whichever way the spend is broken down, the lines sum to the total; the
    unknown dollars are the unknown owner's line; and the total is the sum over the events
    that count.
   */
  lemma {:induction false} LinesSumToTotal(events: seq<Event>, r: Report, included: seq<Event>)
    requires IsReport(events, r) && IsIncluded(events, included)
    ensures r.total == SumBy(included, CostOf)
    ensures SumMap(r.byProvider) == r.total && SumMap(r.byOwner) == r.total && SumMap(r.byModel) == r.total
    ensures r.unknown == At(r.byOwner, UNKNOWN)
  {
    var a :| IsCoverage(events, a) && r == ReportOn(Counting(events, a));
    var b :| IsCoverage(events, b) && included == Counting(events, b);
    OneCoverage(events, a, b);
    LinesAddUp(included, ProviderOf, CostOf);
    LinesAddUp(included, OwnerOf, CostOf);
    LinesAddUp(included, ModelOf, CostOf);
    LineIs(included, OwnerOf, CostOf, UNKNOWN);
  }

  lemma SameCoverage(events: seq<Event>, others: seq<Event>, a: Coverage, b: Coverage)
    requires multiset(events) == multiset(others)
    requires IsCoverage(events, a) && IsCoverage(others, b)
    ensures a == b
  {
    assert forall e :: e in events <==> e in multiset(events);
    assert forall e :: e in others <==> e in multiset(others);
    hide CoversDay;
    forall cell ensures cell in a <==> cell in b {
      assert IsCovered(events, cell) <==> IsCovered(others, cell);
    }
  }

  lemma SameCounting(events: seq<Event>, others: seq<Event>, cov: Coverage)
    requires multiset(events) == multiset(others)
    ensures multiset(Counting(events, cov)) == multiset(Counting(others, cov))
  {
    hide Counting, CountsTowardTotal;
    forall e ensures multiset(Counting(events, cov))[e] == multiset(Counting(others, cov))[e] {
      CountingKeeps(events, cov, e);
      CountingKeeps(others, cov, e);
    }
  }

  lemma SameReport(xs: seq<Event>, ys: seq<Event>)
    requires multiset(xs) == multiset(ys)
    ensures ReportOn(xs) == ReportOn(ys)
  {
    hide SumBy, Tallied, OwnerOf, ModelOf;
    SumPermutes(xs, ys, CostOf);
    SumPermutes(xs, ys, On(OwnerOf, CostOf, UNKNOWN));
    LinesPermute(xs, ys, ProviderOf, CostOf);
    LinesPermute(xs, ys, OwnerOf, CostOf);
    LinesPermute(xs, ys, ModelOf, CostOf);
  }

  /** The order the ledger is read in makes no difference to the report. */
  lemma {:induction false} OrderMakesNoDifference(events: seq<Event>, others: seq<Event>, r: Report, r': Report)
    requires multiset(events) == multiset(others)
    requires IsReport(events, r) && IsReport(others, r')
    ensures r == r'
  {
    hide ReportOn, Counting, IsCoverage;
    var a :| IsCoverage(events, a) && r == ReportOn(Counting(events, a));
    var b :| IsCoverage(others, b) && r' == ReportOn(Counting(others, b));
    SameCoverage(events, others, a, b);
    SameCounting(events, others, a);
    SameReport(Counting(events, a), Counting(others, a));
  }

  // What the lines are of.

  /** Two names with a slash between them; one alone where the other is empty. */
  function Slash(a: string, b: string): string {
    if a == "" then b else if b == "" then a else a + " / " + b
  }

  lemma JoinFirst(word: string, words: seq<string>)
    ensures Join([word] + words) == if words == [] then word else word + " / " + Join(words)
  {
    assert ([word] + words)[1..] == words;
  }

  lemma PartsFirst(word: string, words: seq<string>)
    ensures Parts([word] + words) == (if word == "" then [] else [word]) + Parts(words)
  {
    assert ([word] + words)[1..] == words;
  }

  function Tagged(word: string): seq<string> {
    if word == "" then [] else [word]
  }

  lemma PartsOf(a: string, b: string, c: string)
    ensures Parts([a, b, c]) == Tagged(a) + (Tagged(b) + Tagged(c))
  {
    PartsFirst(a, [b, c]);
    PartsFirst(b, [c]);
    PartsFirst(c, []);
    assert [a] + [b, c] == [a, b, c] && [b] + [c] == [b, c] && [c] + [] == [c];
    assert Tagged(c) + [] == Tagged(c);
  }

  lemma JoinNotEmpty(words: seq<string>)
    requires words != [] && words[0] != ""
    ensures Join(words) != ""
  {
    if |words| > 1 {
      assert |words[0] + " / " + Join(words[1..])| >= |words[0]|;
    }
  }

  /** A word goes before words joined. */
  lemma JoinTagged(word: string, words: seq<string>)
    requires forall w <- words :: w != ""
    ensures Join(Tagged(word) + words) == Slash(word, Join(words))
  {
    JoinFirst(word, words);
    if words != [] {
      assert words[0] in words;
      JoinNotEmpty(words);
    } else {
      NothingJoined(word);
    }
    hide Join;
    assert [] + words == words;
  }

  lemma SlashInTurn(a: string, b: string, c: string)
    ensures Slash(a, Slash(b, c)) == Slash(Slash(a, b), c)
  {
    assert a + " / " + (b + " / " + c) == (a + " / " + b) + " / " + c;
  }

  /** An owner is its team, project, agent and customer, those that are tagged, in that order; with no tag at all, unknown. */
  lemma OwnerNames(e: Event)
    ensures
      var t := e.tags;
      OwnerOf(e) == if t == Tags("", "", "", "", "") then "unknown"
                    else Slash(Slash(Slash(t.team, t.project), t.agent),
                               if t.customer == "" then "" else "customer:" + t.customer)
  {
    hide Join, Parts, Slash, Tagged;
    var t := e.tags;
    var c := if t.customer == "" then "" else "customer:" + t.customer;
    var last := Tagged(c);
    PartsOf(t.team, t.project, t.agent);
    TaggedWords(t.agent, c);
    TaggedWords(t.project, c);
    assert Tagged(t.team) + (Tagged(t.project) + Tagged(t.agent)) + last
        == Tagged(t.team) + (Tagged(t.project) + (Tagged(t.agent) + (last + [])));
    JoinTagged(c, []);
    JoinTagged(t.agent, last + []);
    JoinTagged(t.project, Tagged(t.agent) + (last + []));
    JoinTagged(t.team, Tagged(t.project) + (Tagged(t.agent) + (last + [])));
    SlashInTurn(t.project, t.agent, c);
    SlashInTurn(t.team, t.project, Slash(t.agent, c));
    SlashInTurn(Slash(t.team, t.project), t.agent, c);
    NothingJoined(c);
  }

  lemma TaggedWords(a: string, c: string)
    ensures (forall w <- Tagged(a) :: w != "") && (forall w <- Tagged(c) :: w != "")
    ensures Tagged(c) == if c == "" then [] else [c]
  {
  }

  lemma NothingJoined(c: string)
    ensures Join([]) == "" && Slash(c, "") == c
  {
  }

  lemma ReportedOn(events: seq<Event>, r: Report, included: seq<Event>)
    requires IsReport(events, r) && IsIncluded(events, included)
    ensures r == ReportOn(included)
  {
    hide ReportOn, Counting, IsCoverage;
    var a :| IsCoverage(events, a) && r == ReportOn(Counting(events, a));
    var b :| IsCoverage(events, b) && included == Counting(events, b);
    OneCoverage(events, a, b);
  }

  /** A line is what the events of its provider, owner or model that count add up to. */
  lemma {:induction false} LinesAreOf(events: seq<Event>, r: Report, included: seq<Event>, name: string)
    requires IsReport(events, r) && IsIncluded(events, included)
    ensures At(r.byProvider, name) == SumBy(included, (e: Event) => if e.provider == name then e.cost else 0.0)
    ensures At(r.byOwner, name) == SumBy(included, (e: Event) => if OwnerOf(e) == name then e.cost else 0.0)
    ensures At(r.byModel, name) == SumBy(included, (e: Event) => if ModelLine(e.model) == name then e.cost else 0.0)
  {
    ReportedOn(events, r, included);
    hide OwnerOf, SumBy, Tallied, IsReport, IsIncluded;
    LineIs(included, ProviderOf, CostOf, name);
    LineIs(included, OwnerOf, CostOf, name);
    LineIs(included, ModelOf, CostOf, name);
    SumSame(included, On(ProviderOf, CostOf, name), (e: Event) => if e.provider == name then e.cost else 0.0);
    SumSame(included, On(OwnerOf, CostOf, name), (e: Event) => if OwnerOf(e) == name then e.cost else 0.0);
    SumSame(included, On(ModelOf, CostOf, name), (e: Event) => if ModelLine(e.model) == name then e.cost else 0.0);
  }

  /** The line a model's dollars go to: its own, or that of rows that name none. */
  function ModelLine(model: string): string {
    if model != "" then model else "(not grouped by model)"
  }

  /** A bill: no tokens of any kind, no request counted, and a figure the provider stands behind or better. */
  lemma CostRowExactly(e: Event)
    ensures IsCostRow(e)
       <==> && e.usage.input == e.usage.output == e.usage.requests == 0
            && e.usage.cacheRead == e.usage.cacheWrite5m == e.usage.cacheWrite1h == 0
            && (e.confidence.ProviderReported? || e.confidence.InvoiceReconciled? || e.confidence.Final?)
  {
  }

  /** A bill covers the day it starts on, and each other day with an instant of the bill in it, of the first 400. */
  lemma CoversItsDays(e: Event, day: nat)
    ensures CoversDay(e, day)
       <==> && IsCostRow(e) && day < Control.DayOf(e.startsAt) + 400
            && (day == Control.DayOf(e.startsAt) || exists t: nat :: e.startsAt <= t < e.endsAt && Control.DayOf(t) == day)
  {
    if Control.DayOf(e.startsAt) < day && day * Control.DAY < e.endsAt {
      var t: nat := day * Control.DAY;
      assert Control.DayOf(t) == day && e.startsAt <= t;
    }
  }
}

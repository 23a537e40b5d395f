/**
 * The income panel: per-source totals sorted largest first, the average income
 * per calendar month, a 0..100 stability score derived from the coefficient of
 * variation of the monthly totals, and the top source.
 */
module IncomeAnalytics {
  import opened Records
  import opened Aggregation
  import opened Finance

  datatype IncomeSummary = IncomeSummary(
    sourceData: seq<Entry>,
    monthlyStability: int,
    avgMonthly: real,
    topSource: string)

  /** What the panel computes when there is no income at all. */
  const NoIncome: IncomeSummary := IncomeSummary([], 0, 0.0, "None")

  /**
   * The month a transaction falls in, as `format(parseISO(createdAt), 'yyyy-MM')`;
   * date parsing is the parameter `monthKey`.
   */
  function MonthOf(monthKey: string -> string): Transaction -> string
  {
    (t: Transaction) => monthKey(t.createdAt)
  }

  /** `Object.values(byMonth)`. */
  function Values(es: seq<Entry>): (r: seq<real>)
    ensures |r| == |es|
  {
    if es == [] then [] else [es[0].value] + Values(es[1..])
  }

  /** The month totals, in order of each month's first income. */
  function MonthlyTotals(incomes: seq<Transaction>, monthKey: string -> string): seq<real>
  {
    Values(Grouped(Keyed(incomes, MonthOf(monthKey))))
  }

  /** `vals.reduce((a, b) => a + b, 0) / (vals.length || 1)`. */
  function Mean(vals: seq<real>): (r: real)
    ensures vals == [] ==> r == 0.0
    ensures vals != [] ==> r * |vals| as real == Sum(vals)
  {
    Sum(vals) / (if vals == [] then 1.0 else |vals| as real)
  }

  /**
   * `mean === 0 ? 0 : Math.sqrt(variance) / mean` with the population variance.
   * With no values the mean is 0, so the variance's `0 / 0` is never used.
   */
  function CoefficientOfVariation(vals: seq<real>, sqrt: real -> real): (r: real)
    ensures Mean(vals) == 0.0 ==> r == 0.0
  {
    var mean := Mean(vals);
    if mean == 0.0 then 0.0
    else
      assert vals != [];
      sqrt(SquaredDeviations(vals, mean) / |vals| as real) / mean
  }

  /** `Math.max(0, Math.min(100, x))`. */
  function Clamp(x: real): (r: real)
    ensures 0.0 <= r <= 100.0
    ensures 0.0 <= x <= 100.0 ==> r == x
    ensures x < 0.0 ==> r == 0.0
    ensures x > 100.0 ==> r == 100.0
  {
    if 100.0 < x then 100.0 else if x < 0.0 then 0.0 else x
  }

  /** `Math.round(Math.max(0, Math.min(100, 100 - cv * 100)))`. */
  function Stability(cv: real): (r: int)
    ensures 0 <= r <= 100
    ensures cv <= 0.0 ==> r == 100
    ensures cv >= 1.0 ==> r == 0
  {
    Round(Clamp(100.0 - cv * 100.0))
  }

  /** `sourceArray[0]?.name || 'None'`: the empty name is falsy as well. */
  function TopSourceName(sources: seq<Entry>): string
  {
    if sources == [] || sources[0].name == "" then "None" else sources[0].name
  }

  /** What the `useMemo` computes, as one value. */
  function IncomeSummaryOf(ts: seq<Transaction>, monthKey: string -> string, sqrt: real -> real): IncomeSummary
  {
    SummaryOfIncomes(OfKind(ts, Income), monthKey, sqrt)
  }

  /** The same, from the income transactions on. */
  function SummaryOfIncomes(incomes: seq<Transaction>, monthKey: string -> string, sqrt: real -> real): IncomeSummary
  {
    if incomes == [] then NoIncome
    else
      var sources := SortDesc(Grouped(Keyed(incomes, Category)));
      var vals := MonthlyTotals(incomes, monthKey);
      IncomeSummary(sources, Stability(CoefficientOfVariation(vals, sqrt)), Mean(vals), TopSourceName(sources))
  }

  /** The panel renders nothing when there are no sources. */
  predicate Renders(s: IncomeSummary)
  {
    s.sourceData != []
  }

  /** The `useMemo` body: the two `forEach` passes fill `bySource` and `byMonth`. */
  method Summarize(ts: seq<Transaction>, monthKey: string -> string, sqrt: real -> real) returns (s: IncomeSummary)
    ensures s == IncomeSummaryOf(ts, monthKey, sqrt)
  {
    var incomes := OfKind(ts, Income);
    if |incomes| == 0 {
      return NoIncome;
    }
    var bySource := Tally(Keyed(incomes, Category));
    var sourceArray := SortDesc(bySource);
    var byMonth := Tally(Keyed(incomes, MonthOf(monthKey)));
    var vals := Values(byMonth);
    var mean := Mean(vals);
    var cv := CoefficientOfVariation(vals, sqrt);
    s := IncomeSummary(sourceArray, Stability(cv), mean, TopSourceName(sourceArray));
  }

  // ---------------------------------------------------------------------------
  // Properties
  // ---------------------------------------------------------------------------

  lemma {:induction false} SumOfValues(es: seq<Entry>)
    ensures Sum(Values(es)) == SumValues(es)
  {
    if es != [] {
      SumOfValues(es[1..]);
      SumAppend([es[0].value], Values(es[1..]));
      assert Sum([es[0].value]) == es[0].value by {
        assert [es[0].value][..0] == [];
      }
    }
  }

  /** Without income the panel is hidden and every figure is at its default. */
  lemma HiddenWithoutIncome(ts: seq<Transaction>, monthKey: string -> string, sqrt: real -> real)
    requires forall i :: 0 <= i < |ts| ==> ts[i].kind == Expense
    ensures IncomeSummaryOf(ts, monthKey, sqrt) == NoIncome
    ensures !Renders(IncomeSummaryOf(ts, monthKey, sqrt))
  {
    OfKindNone(ts, Income);
  }

  /** The figures of a summary with some income, one by one. */
  lemma SummaryFields(ts: seq<Transaction>, monthKey: string -> string, sqrt: real -> real)
    requires OfKind(ts, Income) != []
    ensures var s := IncomeSummaryOf(ts, monthKey, sqrt);
      && s.sourceData == SortDesc(Grouped(Keyed(OfKind(ts, Income), Category)))
      && s.topSource == TopSourceName(s.sourceData)
      && s.avgMonthly == Mean(MonthlyTotals(OfKind(ts, Income), monthKey))
      && 0 <= s.monthlyStability <= 100
  {
  }

  /** With some income the panel shows, and the source totals are one per source, sorted, adding up to the income total. */
  lemma SourcesAddUp(ts: seq<Transaction>, monthKey: string -> string, sqrt: real -> real, k: string)
    requires OfKind(ts, Income) != []
    ensures Renders(IncomeSummaryOf(ts, monthKey, sqrt))
    ensures SumValues(IncomeSummaryOf(ts, monthKey, sqrt).sourceData) == Total(OfKind(ts, Income))
    ensures SortedDesc(IncomeSummaryOf(ts, monthKey, sqrt).sourceData)
    ensures Distinct(Names(IncomeSummaryOf(ts, monthKey, sqrt).sourceData))
    ensures k in Names(IncomeSummaryOf(ts, monthKey, sqrt).sourceData) <==>
      exists t :: t in ts && t.kind == Income && t.category == k
  {
    var incomes := OfKind(ts, Income);
    SummaryFields(ts, monthKey, sqrt);
    var sources := SortDesc(Grouped(Keyed(incomes, Category)));
    SortedGroups(incomes, Category, k);
    assert sources != [] by {
      SortedGroups(incomes, Category, Category(incomes[0]));
    }
    OfKindMembers(ts, Income);
    if exists t :: t in ts && t.kind == Income && t.category == k {
      var t :| t in ts && t.kind == Income && t.category == k;
      var i :| 0 <= i < |incomes| && incomes[i] == t;
      assert Category(incomes[i]) == k;
    }
  }

  /** Sources with equal sums are listed in the order they first occur among the incomes. */
  lemma SourceTiesInFirstOrder(ts: seq<Transaction>, monthKey: string -> string, sqrt: real -> real, v: real)
    ensures OfValue(IncomeSummaryOf(ts, monthKey, sqrt).sourceData, v) == OfValue(Grouped(Keyed(OfKind(ts, Income), Category)), v)
  {
    if OfKind(ts, Income) != [] {
      SummaryFields(ts, monthKey, sqrt);
      SortDescStable(Grouped(Keyed(OfKind(ts, Income), Category)), v);
    }
  }

  /** The top source is the first source with the largest total (or "None" when its name is empty). */
  lemma TopSourceIsLargest(ts: seq<Transaction>, monthKey: string -> string, sqrt: real -> real)
    requires OfKind(ts, Income) != []
    ensures var g := Grouped(Keyed(OfKind(ts, Income), Category));
      && g != []
      && IncomeSummaryOf(ts, monthKey, sqrt).topSource == (if g[FirstMax(g)].name == "" then "None" else g[FirstMax(g)].name)
  {
    var incomes := OfKind(ts, Income);
    var g := Grouped(Keyed(incomes, Category));
    SummaryFields(ts, monthKey, sqrt);
    SortedGroups(incomes, Category, Category(incomes[0]));
    SortDescHead(g);
  }

  /** The number of months with income, and the income total, seen through the month totals. */
  lemma MonthlyTotalsFacts(incomes: seq<Transaction>, monthKey: string -> string)
    requires incomes != []
    ensures |MonthlyTotals(incomes, monthKey)| == |Dedup(Names(Keyed(incomes, MonthOf(monthKey))))| >= 1
    ensures Sum(MonthlyTotals(incomes, monthKey)) == Total(incomes)
  {
    var items := Keyed(incomes, MonthOf(monthKey));
    var g := Grouped(items);
    GroupedNames(items);
    GroupedSum(items);
    KeyedSum(incomes, MonthOf(monthKey));
    SumOfValues(g);
    KeyedNames(incomes, MonthOf(monthKey), MonthOf(monthKey)(incomes[0]));
  }

  /** The mean of the month totals times the number of months with income is the income total. */
  lemma {:induction false} MeanTimesMonths(incomes: seq<Transaction>, monthKey: string -> string)
    requires incomes != []
    ensures |MonthlyTotals(incomes, monthKey)| >= 1
    ensures Mean(MonthlyTotals(incomes, monthKey)) * |MonthlyTotals(incomes, monthKey)| as real == Total(incomes)
  {
    MonthlyTotalsFacts(incomes, monthKey);
  }

  /**
   * The average per month times the number of months with income is the
   * income total; that number is the count of distinct months (`MonthlyTotalsFacts`).
   */
  lemma {:induction false} AverageTimesMonths(incomes: seq<Transaction>, monthKey: string -> string, sqrt: real -> real)
    requires incomes != []
    ensures |MonthlyTotals(incomes, monthKey)| >= 1
    ensures SummaryOfIncomes(incomes, monthKey, sqrt).avgMonthly * |MonthlyTotals(incomes, monthKey)| as real == Total(incomes)
  {
    MeanTimesMonths(incomes, monthKey);
  }

  lemma {:induction false} SumOfConstant(vals: seq<real>, c: real)
    requires forall i :: 0 <= i < |vals| ==> vals[i] == c
    ensures Sum(vals) == |vals| as real * c
    ensures SquaredDeviations(vals, c) == 0.0
  {
    if vals != [] {
      var p := vals[..|vals| - 1];
      assert forall i :: 0 <= i < |p| ==> p[i] == vals[i];
      SumOfConstant(p, c);
    }
  }

  /** The same income every month scores a full 100. */
  lemma SteadyIncomeIsFullyStable(vals: seq<real>, c: real, sqrt: real -> real)
    requires IsRoot(sqrt)
    requires forall i :: 0 <= i < |vals| ==> vals[i] == c
    ensures CoefficientOfVariation(vals, sqrt) == 0.0
    ensures Stability(CoefficientOfVariation(vals, sqrt)) == 100
  {
    SumOfConstant(vals, c);
    if Mean(vals) != 0.0 {
      assert Mean(vals) == c;
      var v := SquaredDeviations(vals, Mean(vals)) / |vals| as real;
      assert v == 0.0;
      RootIsUnique(sqrt, 0.0, 0.0);
    }
  }

  /** With positive months the coefficient of variation is at least 0, so stability never exceeds its unclamped value. */
  lemma VariationNonNegative(vals: seq<real>, sqrt: real -> real)
    requires IsRoot(sqrt)
    requires forall i :: 0 <= i < |vals| ==> vals[i] >= 0.0
    ensures CoefficientOfVariation(vals, sqrt) >= 0.0
  {
    var m := Mean(vals);
    SumNonNegative(vals);
    if m != 0.0 {
      SquaredDeviationsNonNegative(vals, m);
      var v := SquaredDeviations(vals, m) / |vals| as real;
      assert sqrt(v) >= 0.0;
    }
  }

  lemma {:induction false} SumNonNegative(vals: seq<real>)
    requires forall i :: 0 <= i < |vals| ==> vals[i] >= 0.0
    ensures Sum(vals) >= 0.0
  {
    if vals != [] {
      var p := vals[..|vals| - 1];
      assert forall i :: 0 <= i < |p| ==> p[i] == vals[i];
      SumNonNegative(p);
    }
  }

  /** When every month brings in the same total, the panel shows a stability of 100. */
  lemma SteadyMonthsScoreFull(incomes: seq<Transaction>, monthKey: string -> string, sqrt: real -> real)
    requires IsRoot(sqrt)
    requires incomes != []
    requires forall i :: 0 <= i < |MonthlyTotals(incomes, monthKey)| ==>
      MonthlyTotals(incomes, monthKey)[i] == MonthlyTotals(incomes, monthKey)[0]
    ensures SummaryOfIncomes(incomes, monthKey, sqrt).monthlyStability == 100
  {
    var vals := MonthlyTotals(incomes, monthKey);
    SteadyIncomeIsFullyStable(vals, vals[0], sqrt);
  }
}

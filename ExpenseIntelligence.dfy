/**
 * The spending breakdown panel: the expenses' total, their per-category sums
 * sorted largest first, the needs/wants split and the single largest expense.
 */
module ExpenseIntelligence {
  import opened Records
  import opened Aggregation

  /** The categories counted as needs; every other category is a want. */
  const Needs: seq<string> := ["Housing", "Food", "Transportation", "Utilities", "Healthcare", "Debt"]

  datatype TopExpense = TopExpense(description: string, amount: real)

  /** `maxTx` before the scan: `{ description: 'None', amount: 0 }`. */
  const NoTopExpense: TopExpense := TopExpense("None", 0.0)

  datatype Breakdown = Breakdown(
    categoryData: seq<Entry>,
    totalExpenses: real,
    needsTotal: real,
    wantsTotal: real,
    topExpense: TopExpense)

  /** `needs += amt` for each expense whose category is a need. */
  function NeedsTotal(es: seq<Transaction>): real
  {
    if es == [] then 0.0
    else
      var t := es[|es| - 1];
      NeedsTotal(es[..|es| - 1]) + (if t.category in Needs then t.amount else 0.0)
  }

  /** The sum over the expenses whose category is not a need. */
  function WantsSum(es: seq<Transaction>): real
  {
    if es == [] then 0.0
    else
      var t := es[|es| - 1];
      WantsSum(es[..|es| - 1]) + (if t.category in Needs then 0.0 else t.amount)
  }

  /** The scan `if (amt > maxTx.amount) maxTx = …`: a later expense wins only if strictly larger. */
  function TopOf(es: seq<Transaction>): TopExpense
  {
    if es == [] then NoTopExpense
    else
      var m := TopOf(es[..|es| - 1]);
      var t := es[|es| - 1];
      if t.amount > m.amount then TopExpense(t.description, t.amount) else m
  }

  lemma PrefixStep(es: seq<Transaction>, i: nat)
    requires i < |es|
    ensures NeedsTotal(es[..i + 1]) == NeedsTotal(es[..i]) + (if es[i].category in Needs then es[i].amount else 0.0)
    ensures TopOf(es[..i + 1]) == if es[i].amount > TopOf(es[..i]).amount then TopExpense(es[i].description, es[i].amount) else TopOf(es[..i])
  {
    assert es[..i + 1][..i] == es[..i];
  }

  /** What the `useMemo` computes, as one value. */
  function BreakdownOf(ts: seq<Transaction>): Breakdown
  {
    var expenses := OfKind(ts, Expense);
    var total := Total(expenses);
    var needs := NeedsTotal(expenses);
    Breakdown(SortDesc(Grouped(Keyed(expenses, Category))), total, needs, total - needs, TopOf(expenses))
  }

  /** The panel renders nothing when there are no expenses to break down. */
  predicate Renders(b: Breakdown)
  {
    b.totalExpenses != 0.0
  }

  /** The widths, in percent, of the needs and the wants segments of the bar. */
  function BarWidths(b: Breakdown): (w: (real, real))
    requires Renders(b)
    ensures b.needsTotal + b.wantsTotal == b.totalExpenses ==> w.0 + w.1 == 100.0
  {
    (b.needsTotal / b.totalExpenses * 100.0, b.wantsTotal / b.totalExpenses * 100.0)
  }

  /** The `useMemo` body: one `forEach` over the expenses updating the dictionary, `needs` and `maxTx`. */
  method Summarize(ts: seq<Transaction>) returns (b: Breakdown)
    ensures b == BreakdownOf(ts)
  {
    var expenses := OfKind(ts, Expense);
    var total := Total(expenses);
    var grouped: seq<Entry> := [];
    var needs := 0.0;
    var maxTx := NoTopExpense;
    var i := 0;
    while i < |expenses|
      invariant 0 <= i <= |expenses|
      invariant grouped == Grouped(Keyed(expenses[..i], Category))
      invariant needs == NeedsTotal(expenses[..i])
      invariant maxTx == TopOf(expenses[..i])
    {
      var t := expenses[i];
      var amt := t.amount;
      GroupedKeyedStep(expenses, Category, i);
      PrefixStep(expenses, i);
      grouped := AddTo(grouped, t.category, amt);
      if t.category in Needs {
        needs := needs + amt;
      }
      if amt > maxTx.amount {
        maxTx := TopExpense(t.description, amt);
      }
      i := i + 1;
    }
    assert expenses[..i] == expenses;
    var data := SortDesc(grouped);
    b := Breakdown(data, total, needs, total - needs, maxTx);
  }

  // ---------------------------------------------------------------------------
  // Properties
  // ---------------------------------------------------------------------------

  /** Income transactions do not move any figure of the breakdown. */
  lemma IncomeDoesNotCount(ts: seq<Transaction>, t: Transaction)
    requires t.kind == Income
    ensures BreakdownOf(ts + [t]) == BreakdownOf(ts)
    ensures BreakdownOf([t] + ts) == BreakdownOf(ts)
  {
    OfKindAppend(ts, [t], Expense);
    OfKindAppend([t], ts, Expense);
    OfKindNone([t], Expense);
    assert OfKind(ts, Expense) + [] == OfKind(ts, Expense);
    assert [] + OfKind(ts, Expense) == OfKind(ts, Expense);
  }

  lemma {:induction false} NeedsAndWantsSplitTotal(es: seq<Transaction>)
    ensures NeedsTotal(es) + WantsSum(es) == Total(es)
  {
    if es != [] {
      NeedsAndWantsSplitTotal(es[..|es| - 1]);
    }
  }

  /** Wants are the expenses outside the needs list, and needs plus wants is the total. */
  lemma NeedsPlusWants(ts: seq<Transaction>)
    ensures BreakdownOf(ts).wantsTotal == WantsSum(OfKind(ts, Expense))
    ensures BreakdownOf(ts).needsTotal + BreakdownOf(ts).wantsTotal == BreakdownOf(ts).totalExpenses
  {
    NeedsAndWantsSplitTotal(OfKind(ts, Expense));
  }

  /** The category sums add up to the expense total. */
  lemma CategoriesAddUp(ts: seq<Transaction>)
    ensures SumValues(BreakdownOf(ts).categoryData) == BreakdownOf(ts).totalExpenses
  {
    SortedGroups(OfKind(ts, Expense), Category, "");
  }

  /** One entry per distinct expense category, sorted largest first. */
  lemma CategoriesDistinctAndSorted(ts: seq<Transaction>, k: string)
    ensures Distinct(Names(BreakdownOf(ts).categoryData))
    ensures SortedDesc(BreakdownOf(ts).categoryData)
    ensures k in Names(BreakdownOf(ts).categoryData) <==>
      exists t :: t in ts && t.kind == Expense && t.category == k
  {
    var expenses := OfKind(ts, Expense);
    SortedGroups(expenses, Category, k);
    OfKindMembers(ts, Expense);
    if exists t :: t in ts && t.kind == Expense && t.category == k {
      var t :| t in ts && t.kind == Expense && t.category == k;
      var i :| 0 <= i < |expenses| && expenses[i] == t;
      assert Category(expenses[i]) == k;
    }
  }

  /** Categories with equal sums are listed in the order they first occur among the expenses. */
  lemma CategoryTiesInFirstOrder(ts: seq<Transaction>, v: real)
    ensures OfValue(BreakdownOf(ts).categoryData, v) == OfValue(Grouped(Keyed(OfKind(ts, Expense), Category)), v)
  {
    SortDescStable(Grouped(Keyed(OfKind(ts, Expense), Category)), v);
  }

  /** Each category's value is the sum of that category's expenses. */
  lemma CategoryValue(ts: seq<Transaction>, e: Entry)
    requires e in BreakdownOf(ts).categoryData
    ensures e.value == KeyTotal(Keyed(OfKind(ts, Expense), Category), e.name)
  {
    var g := Grouped(Keyed(OfKind(ts, Expense), Category));
    SortDescPermutes(g);
    assert e in multiset(SortDesc(g));
    var i :| 0 <= i < |g| && g[i] == e;
    GroupedEntry(Keyed(OfKind(ts, Expense), Category), i);
  }

  /** The top expense is at least every expense and at least 0. */
  lemma {:induction false} TopDominates(es: seq<Transaction>)
    ensures TopOf(es).amount >= 0.0
    ensures forall i :: 0 <= i < |es| ==> es[i].amount <= TopOf(es).amount
  {
    if es != [] {
      var p := es[..|es| - 1];
      TopDominates(p);
      assert forall i :: 0 <= i < |p| ==> es[i] == p[i];
    }
  }

  /** It stays `{ 'None', 0 }` exactly when no expense is positive. */
  lemma {:induction false} TopIsNoneUnlessPositive(es: seq<Transaction>)
    ensures TopOf(es) == NoTopExpense <==> forall i :: 0 <= i < |es| ==> es[i].amount <= 0.0
  {
    TopDominates(es);
    if es != [] {
      var p := es[..|es| - 1];
      TopIsNoneUnlessPositive(p);
      TopDominates(p);
      assert forall i :: 0 <= i < |p| ==> es[i] == p[i];
    }
  }

  /** Among equal largest amounts the earliest expense is kept. */
  lemma {:induction false} TopIsEarliestLargest(es: seq<Transaction>)
    requires exists i :: 0 <= i < |es| && es[i].amount > 0.0
    ensures exists i ::
              && 0 <= i < |es|
              && TopOf(es) == TopExpense(es[i].description, es[i].amount)
              && (forall j :: 0 <= j < i ==> es[j].amount < es[i].amount)
  {
    var n := |es|;
    var p, t := es[..n - 1], es[n - 1];
    TopDominates(p);
    assert forall j :: 0 <= j < n - 1 ==> es[j] == p[j];
    if t.amount > TopOf(p).amount {
      assert TopOf(es) == TopExpense(es[n - 1].description, es[n - 1].amount);
    } else {
      TopIsNoneUnlessPositive(p);
      assert exists i :: 0 <= i < |p| && p[i].amount > 0.0;
      TopIsEarliestLargest(p);
      var i :| && 0 <= i < |p|
               && TopOf(p) == TopExpense(p[i].description, p[i].amount)
               && (forall j :: 0 <= j < i ==> p[j].amount < p[i].amount);
      assert TopOf(es) == TopExpense(es[i].description, es[i].amount);
    }
  }

  /** With no expenses the panel is hidden. */
  lemma HiddenWithoutExpenses(ts: seq<Transaction>)
    requires forall i :: 0 <= i < |ts| ==> ts[i].kind == Income
    ensures !Renders(BreakdownOf(ts))
  {
    OfKindNone(ts, Expense);
  }

  /** When the panel shows, the needs and wants segments fill the whole bar. */
  lemma BarIsFull(ts: seq<Transaction>)
    requires Renders(BreakdownOf(ts))
    ensures BarWidths(BreakdownOf(ts)).0 + BarWidths(BreakdownOf(ts)).1 == 100.0
  {
    NeedsPlusWants(ts);
  }
}

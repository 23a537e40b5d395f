/**
 * The four headline cards: net worth, runway, savings rate and burn. The
 * current month (`new Date().getMonth()`, 0 for January) is the parameter
 * `monthIndex`.
 */
module CoreOverview {
  import opened Records
  import opened Finance

  datatype Overview = Overview(
    totalIncome: real,
    totalExpense: real,
    netWorth: real,
    monthlyBurn: real,
    runway: Runway,
    savingsRate: real,
    dailyBurn: real)

  /** `Math.max(1, monthIndex + 1)`: the number of months elapsed this year. */
  function BurnDivisor(monthIndex: int): (d: int)
    ensures d >= 1
    ensures 0 <= monthIndex <= 11 ==> d == monthIndex + 1 && d <= 12
    ensures monthIndex < 0 ==> d == 1
  {
    if 1 < monthIndex + 1 then monthIndex + 1 else 1
  }

  /** Everything the cards compute from the transaction list. */
  function OverviewOf(ts: seq<Transaction>, monthIndex: int): Overview
  {
    var income := Total(OfKind(ts, Income));
    var expense := Total(OfKind(ts, Expense));
    var net := income - expense;
    var burn := MonthlyBurn(expense, monthIndex);
    Overview(income, expense, net, burn, CalcRunway(net, burn), CalcSavingsRate(income, expense), DailyBurn(burn))
  }

  /** `totalExpense / Math.max(1, monthIndex + 1)`: spending per elapsed month. */
  function MonthlyBurn(expense: real, monthIndex: int): (burn: real)
    ensures burn * BurnDivisor(monthIndex) as real == expense
    ensures burn == 0.0 <==> expense == 0.0
  {
    expense / BurnDivisor(monthIndex) as real
  }

  /** `monthlyBurn / 30`. */
  function DailyBurn(burn: real): (daily: real)
    ensures daily * 30.0 == burn
  {
    burn / 30.0
  }

  /** The amounts the burn card shows: `Math.round(monthlyBurn)` and `Math.round(dailyBurn)`. */
  function BurnShown(o: Overview): (r: (int, int))
    ensures o.monthlyBurn - 1.0 / 2.0 < r.0 as real <= o.monthlyBurn + 1.0 / 2.0
    ensures o.dailyBurn - 1.0 / 2.0 < r.1 as real <= o.dailyBurn + 1.0 / 2.0
  {
    (Round(o.monthlyBurn), Round(o.dailyBurn))
  }

  /** `savingsRate.toFixed(1)`, in tenths of a percent. */
  function SavingsShown(o: Overview): (tenths: int)
    ensures NearestTenths(o.savingsRate, tenths)
    ensures -1.0 / 20.0 <= tenths as real / 10.0 - o.savingsRate <= 1.0 / 20.0
  {
    RoundToTenths(o.savingsRate)
  }

  /** The width of the savings bar, `Math.min(savingsRate, 100)` percent. */
  function SavingsBarWidth(rate: real): (w: real)
    ensures w <= 100.0
    ensures w <= rate
    ensures w == rate || w == 100.0
  {
    if rate < 100.0 then rate else 100.0
  }

  /** The savings figure is green above 20%, yellow otherwise. */
  predicate SavingsIsGreen(rate: real)
  {
    rate > 20.0
  }

  // ---------------------------------------------------------------------------
  // Properties
  // ---------------------------------------------------------------------------

  /** Income and expense totals partition the transactions, and net worth is their difference. */
  lemma TotalsAndNetWorth(ts: seq<Transaction>, monthIndex: int)
    ensures OverviewOf(ts, monthIndex).totalIncome + OverviewOf(ts, monthIndex).totalExpense == Total(ts)
    ensures OverviewOf(ts, monthIndex).netWorth == OverviewOf(ts, monthIndex).totalIncome - OverviewOf(ts, monthIndex).totalExpense
  {
    TotalSplitsByKind(ts);
  }

  /** An added expense moves only the expense side, and an added income only the income side. */
  lemma AddingOneTransaction(ts: seq<Transaction>, t: Transaction, monthIndex: int)
    ensures t.kind == Expense ==>
      && OverviewOf(ts + [t], monthIndex).totalExpense == OverviewOf(ts, monthIndex).totalExpense + t.amount
      && OverviewOf(ts + [t], monthIndex).totalIncome == OverviewOf(ts, monthIndex).totalIncome
    ensures t.kind == Income ==>
      && OverviewOf(ts + [t], monthIndex).totalIncome == OverviewOf(ts, monthIndex).totalIncome + t.amount
      && OverviewOf(ts + [t], monthIndex).totalExpense == OverviewOf(ts, monthIndex).totalExpense
  {
    OfKindAppend(ts, [t], Income);
    OfKindAppend(ts, [t], Expense);
    TotalAppend(OfKind(ts, t.kind), [t]);
    assert OfKind([t], t.kind) == [t];
    if t.kind == Expense {
      assert OfKind([t], Income) == [];
      assert OfKind(ts, Income) + [] == OfKind(ts, Income);
    } else {
      assert OfKind([t], Expense) == [];
      assert OfKind(ts, Expense) + [] == OfKind(ts, Expense);
    }
  }

  /** Monthly burn spreads the expense total over the months elapsed; daily burn is a thirtieth of it. */
  lemma BurnRates(ts: seq<Transaction>, monthIndex: int)
    ensures OverviewOf(ts, monthIndex).monthlyBurn * BurnDivisor(monthIndex) as real == OverviewOf(ts, monthIndex).totalExpense
    ensures OverviewOf(ts, monthIndex).dailyBurn * 30.0 == OverviewOf(ts, monthIndex).monthlyBurn
    ensures 0 <= monthIndex <= 11 ==> 1 <= BurnDivisor(monthIndex) <= 12
  {
  }

  /** The runway is infinite exactly when nothing was spent; otherwise it is net worth over monthly burn. */
  lemma RunwayOfOverview(ts: seq<Transaction>, monthIndex: int)
    ensures OverviewOf(ts, monthIndex).runway.Infinite? <==> OverviewOf(ts, monthIndex).totalExpense == 0.0
    ensures OverviewOf(ts, monthIndex).runway == CalcRunway(OverviewOf(ts, monthIndex).netWorth, OverviewOf(ts, monthIndex).monthlyBurn)
  {
  }

  lemma {:induction false} AmountsNonNegative(ts: seq<Transaction>, k: Kind)
    requires forall i :: 0 <= i < |ts| ==> ts[i].amount >= 0.0
    ensures Total(OfKind(ts, k)) >= 0.0
  {
    OfKindMembers(ts, k);
    TotalNonNegative(OfKind(ts, k));
  }

  /**
   * With non-negative amounts and some income, the savings rate is at most 100,
   * and the figure is green exactly when expenses stay under 80% of income.
   */
  lemma SavingsRateBounds(ts: seq<Transaction>, monthIndex: int)
    requires forall i :: 0 <= i < |ts| ==> ts[i].amount >= 0.0
    requires OverviewOf(ts, monthIndex).totalIncome > 0.0
    ensures OverviewOf(ts, monthIndex).savingsRate <= 100.0
    ensures SavingsBarWidth(OverviewOf(ts, monthIndex).savingsRate) == OverviewOf(ts, monthIndex).savingsRate
    ensures SavingsIsGreen(OverviewOf(ts, monthIndex).savingsRate) <==>
      OverviewOf(ts, monthIndex).totalExpense < 4.0 / 5.0 * OverviewOf(ts, monthIndex).totalIncome
  {
    var o := OverviewOf(ts, monthIndex);
    AmountsNonNegative(ts, Expense);
    GreenThreshold(o.totalIncome, o.totalExpense);
  }

  lemma GreenThreshold(income: real, expenses: real)
    requires income > 0.0
    ensures CalcSavingsRate(income, expenses) > 20.0 <==> expenses < 4.0 / 5.0 * income
  {
    var r := CalcSavingsRate(income, expenses);
    assert r * income == (income - expenses) * 100.0;
    if r > 20.0 {
      assert (r - 20.0) * income > 0.0;
    } else {
      var a := 20.0 - r;
      assert a >= 0.0;
      assert a * income >= 0.0;
      assert a * income == 20.0 * income - r * income;
    }
  }
}

/** The Income vs Expenses widget of src/components/Income.jsx: this month's income and
    expense totals, their ratio and balance, and the message and bar shown from them. */
module Income {
  import opened Common
  import opened Ledger

  /** `income` and `expenses` after a successful fetch: the income-type and expense-type
      amounts of this month's records. */
  datatype Totals = Totals(income: real, expenses: real)

  function MonthTotals(txs: seq<Transaction>, year: int, month: int): (r: Totals)
    ensures r.expenses == SumAmounts(MonthlyOfKind(txs, "expense", year, month))
    ensures r.income == SumAmounts(MonthlyOfKind(txs, "income", year, month))
  {
    var thisMonth := ThisMonth(txs, year, month);
    MonthlyOfKindIsTwoFilters(txs, "expense", year, month);
    MonthlyOfKindIsTwoFilters(txs, "income", year, month);
    Totals(SumAmounts(OfKind(thisMonth, "income")), SumAmounts(OfKind(thisMonth, "expense")))
  }

  /** A record of any other type, or of another month, changes neither total. */
  lemma MonthTotalsIgnore(a: seq<Transaction>, t: Transaction, b: seq<Transaction>, year: int, month: int)
    requires (t.kind != "income" && t.kind != "expense") || !InMonth(t.date, year, month)
    ensures MonthTotals(a + [t] + b, year, month) == MonthTotals(a + b, year, month)
  {
    MonthlyTotalIgnores(a, t, b, "income", year, month);
    MonthlyTotalIgnores(a, t, b, "expense", year, month);
  }

  /** When this month holds only incomes and expenses, the two totals add up to all of it. */
  lemma MonthTotalsPartition(txs: seq<Transaction>, year: int, month: int)
    requires forall t :: t in txs && InMonth(t.date, year, month) ==> t.kind == "income" || t.kind == "expense"
    ensures MonthTotals(txs, year, month).income + MonthTotals(txs, year, month).expenses
         == SumAmounts(ThisMonth(txs, year, month))
  {
    KindsPartition(ThisMonth(txs, year, month));
    MonthlyOfKindIsTwoFilters(txs, "expense", year, month);
    MonthlyOfKindIsTwoFilters(txs, "income", year, month);
  }

  /** `spentRatio`: expenses as a percentage of a positive income, else 0. */
  function SpentRatio(t: Totals): (r: real)
    ensures t.income > 0.0 ==> r * t.income == t.expenses * 100.0
    ensures t.income <= 0.0 ==> r == 0.0
  {
    if t.income > 0.0 then t.expenses / t.income * 100.0 else 0.0
  }

  function Balance(t: Totals): (b: real)
    ensures b + t.expenses == t.income
  {
    t.income - t.expenses
  }

  /** `getStatusMessage`: checks for no income first, then the strict thresholds. */
  datatype Status = NoIncome | Overspending | WatchSpending | ManagingWell

  function StatusOf(t: Totals): (s: Status)
    ensures s == NoIncome <==> t.income == 0.0
    ensures s == Overspending <==> t.income != 0.0 && SpentRatio(t) > 100.0
    ensures s == WatchSpending <==> t.income != 0.0 && 80.0 < SpentRatio(t) <= 100.0
    ensures s == ManagingWell <==> t.income != 0.0 && SpentRatio(t) <= 80.0
  {
    if t.income == 0.0 then NoIncome
    else if SpentRatio(t) > 100.0 then Overspending
    else if SpentRatio(t) > 80.0 then WatchSpending
    else ManagingWell
  }

  /** `getBarColor`. */
  function BarColour(spentRatio: real): (c: Tone)
    ensures c == Red <==> spentRatio > 100.0
    ensures c == Yellow <==> 80.0 < spentRatio <= 100.0
    ensures c == Green <==> spentRatio <= 80.0
  {
    if spentRatio > 100.0 then Red
    else if spentRatio > 80.0 then Yellow
    else Green
  }

  /** With some income, the message and the bar colour use the same strict thresholds; with a
      positive income, overspending is exactly expenses above income. */
  lemma StatusMatchesBar(t: Totals)
    requires t.income != 0.0
    ensures StatusOf(t) == Overspending <==> BarColour(SpentRatio(t)) == Red
    ensures StatusOf(t) == WatchSpending <==> BarColour(SpentRatio(t)) == Yellow
    ensures StatusOf(t) == ManagingWell <==> BarColour(SpentRatio(t)) == Green
    ensures t.income > 0.0 ==> (StatusOf(t) == Overspending <==> t.expenses > t.income)
  {
    if t.income > 0.0 {
      var r := SpentRatio(t);
      assert r * t.income == t.expenses * 100.0;
      assert r > 100.0 <==> t.expenses > t.income;
    }
  }

  /** The bar, shown only with a positive income: the ratio text capped at 150, the width at 100. */
  datatype Bar = Bar(shownRatio: real, width: real, colour: Tone)

  function BarOf(t: Totals): (b: Option<Bar>)
    ensures b.Some? <==> t.income > 0.0
    ensures b.Some? ==> b.value.shownRatio <= 150.0 && b.value.width <= 100.0 && b.value.width <= b.value.shownRatio
    ensures b.Some? && SpentRatio(t) <= 100.0 ==> b.value.width == SpentRatio(t) == b.value.shownRatio
    ensures b.Some? && SpentRatio(t) > 100.0 ==> b.value.width == 100.0
    ensures b.Some? ==> b.value.shownRatio == (if SpentRatio(t) <= 150.0 then SpentRatio(t) else 150.0)
    ensures b.Some? ==> b.value.colour == BarColour(SpentRatio(t))
  {
    if t.income > 0.0 then
      Some(Bar(Min(SpentRatio(t), 150.0), Min(SpentRatio(t), 100.0), BarColour(SpentRatio(t))))
    else None
  }

  class IncomeWidget {
    var income: real
    var expenses: real
    var isLoading: bool

    constructor ()
      ensures income == 0.0 && expenses == 0.0 && isLoading
    {
      income := 0.0;
      expenses := 0.0;
      isLoading := true;
    }

    /** The mount effect: `GET /api/transactions/`; a non-ok status throws and is caught, so it
        leaves the totals as they were, like a network failure. Loading ends either way. */
    method Load(reply: Fetch<Listing<Transaction>>, year: int, month: int)
      modifies this
      ensures !isLoading
      ensures reply.Ok? ==> Totals(income, expenses) == MonthTotals(Items(reply.payload), year, month)
      ensures !reply.Ok? ==> income == old(income) && expenses == old(expenses)
    {
      isLoading := true;
      if reply.Ok? {
        var totals := MonthTotals(Items(reply.payload), year, month);
        income := totals.income;
        expenses := totals.expenses;
      }
      isLoading := false;
    }
  }
}

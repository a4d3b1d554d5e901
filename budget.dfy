/** The Budget Overview widget of src/components/Budget.jsx: the current budget, the sum of
    this month's expense records, and the percentage, colour and message shown from them. */
module Budget {
  import opened Common
  import opened Ledger

  /** The sum shown as "Spent": records of `/api/expenses/` dated this month; a body that is
      not an array counts as no records. (The records have the transaction's `amount` and
      `date`; no `type` filter is applied.) */
  function MonthSpent(body: Listing<Transaction>, year: int, month: int): (s: real)
    ensures !body.Array? ==> s == 0.0
    ensures body.Array? && (forall k :: 0 <= k < |body.items| ==> !InMonth(body.items[k].date, year, month)) ==> s == 0.0
  {
    if body.Array? then
      var m := ThisMonth(body.items, year, month);
      assert (forall k :: 0 <= k < |body.items| ==> !InMonth(body.items[k].date, year, month)) ==> m == [] by {
        if m != [] {
          assert m[0] in m;
        }
      }
      SumAmounts(m)
    else 0.0
  }

  /** The sum counts every record of the month once, wherever it stands in the list, and
      nothing else: a record of this month adds exactly its amount, one of another month
      adds nothing. */
  lemma MonthSpentCounts(a: seq<Transaction>, t: Transaction, b: seq<Transaction>, year: int, month: int)
    ensures InMonth(t.date, year, month) ==>
              MonthSpent(Array(a + [t] + b), year, month) == MonthSpent(Array(a + b), year, month) + t.amount
    ensures !InMonth(t.date, year, month) ==>
              MonthSpent(Array(a + [t] + b), year, month) == MonthSpent(Array(a + b), year, month)
  {
    ThisMonthAppend(a + [t], b, year, month);
    ThisMonthAppend(a, [t], year, month);
    ThisMonthAppend(a, b, year, month);
    assert [t][..0] == [];
    var ma, mt, mb := ThisMonth(a, year, month), ThisMonth([t], year, month), ThisMonth(b, year, month);
    SumAmountsAppend(ma + mt, mb);
    SumAmountsAppend(ma, mt);
    SumAmountsAppend(ma, mb);
    assert SumAmounts([t]) == t.amount by { assert [t][..0] == []; }
  }

  /** `percentUsed`: 0 unless the budget is truthy. */
  function PercentUsed(budget: JsNumber, spent: real): (p: real)
    ensures budget.Truthy() ==> p * budget.value == spent * 100.0
    ensures !budget.Truthy() ==> p == 0.0
  {
    if budget.Truthy() then spent / budget.value * 100.0 else 0.0
  }

  /** `getColor`. */
  function Colour(percentUsed: real): (c: Tone)
    ensures c == Red <==> percentUsed >= 90.0
    ensures c == Yellow <==> 75.0 <= percentUsed < 90.0
    ensures c == Green <==> percentUsed < 75.0
  {
    if percentUsed >= 90.0 then Red
    else if percentUsed >= 75.0 then Yellow
    else Green
  }

  /** The status message. */
  datatype Message = Exceeded | Nearing | Within

  function MessageFor(percentUsed: real): (m: Message)
    ensures m == Exceeded <==> percentUsed >= 100.0
    ensures m == Nearing <==> 75.0 <= percentUsed < 100.0
    ensures m == Within <==> percentUsed < 75.0
  {
    if percentUsed >= 100.0 then Exceeded
    else if percentUsed >= 75.0 then Nearing
    else Within
  }

  /** "Exceeded" is always shown in red, and "within" exactly when the colour is green. */
  lemma MessageMatchesColour(p: real)
    ensures MessageFor(p) == Exceeded ==> Colour(p) == Red
    ensures MessageFor(p) == Within <==> Colour(p) == Green
    ensures MessageFor(p) == Nearing ==> Colour(p) != Green
  {
  }

  datatype View = Loading | NoBudget | Summary(percentUsed: real, colour: Tone, barWidth: real, message: Message)

  /** The render: only a `null` budget (not an absent one) shows the no-budget message. */
  function Render(isLoading: bool, budget: JsNumber, spent: real): (v: View)
    ensures v == Loading <==> isLoading
    ensures v == NoBudget <==> !isLoading && budget == Null
    ensures v.Summary? ==> v.percentUsed == PercentUsed(budget, spent)
    ensures v.Summary? ==> v.colour == Colour(v.percentUsed) && v.message == MessageFor(v.percentUsed)
    ensures v.Summary? ==> v.barWidth == Min(v.percentUsed, 100.0) && v.barWidth <= 100.0
  {
    if isLoading then Loading
    else if budget == Null then NoBudget
    else
      var p := PercentUsed(budget, spent);
      Summary(p, Colour(p), Min(p, 100.0), MessageFor(p))
  }

  class BudgetWidget {
    var budget: JsNumber
    var spent: real
    var isLoading: bool

    constructor ()
      ensures budget == Null && spent == 0.0 && isLoading
    {
      budget := Null;
      spent := 0.0;
      isLoading := true;
    }

    /** `fetchData`, on mount and on Refresh. `budgetReply` is the `amount` of
        `GET /api/budget/current/`, `expensesReply` the body of `GET /api/expenses/`; neither
        status is checked. A failure stops the sequence where it happens. */
    method FetchData(budgetReply: Settled<JsNumber>, expensesReply: Settled<Listing<Transaction>>, year: int, month: int)
      modifies this
      ensures !isLoading
      ensures budget == (if budgetReply.Parsed? then budgetReply.body else old(budget))
      ensures spent == (if budgetReply.Parsed? && expensesReply.Parsed?
                        then MonthSpent(expensesReply.body, year, month)
                        else old(spent))
    {
      if budgetReply.Parsed? {
        budget := budgetReply.body;
        if expensesReply.Parsed? {
          spent := MonthSpent(expensesReply.body, year, month);
        }
      }
      isLoading := false;
    }
  }
}

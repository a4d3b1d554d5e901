/** The Monthly Expenses widget of src/components/Expenses.jsx: a ten-minute cache of the
    month's budget and spending in durable storage under "monthlyExpensesCache", the fetch that
    refills it, and the metrics, colours and status message shown from the two figures. */
module Expenses {
  import opened Common
  import opened Ledger

  /** The cache is trusted while it is younger than 10 * 60 * 1000 milliseconds. */
  const FreshnessMs: int := 10 * 60 * 1000

  /** The cache slot: empty (no item, or the empty string), not parsable as JSON (or parsed to
      a value whose fields cannot be read, such as `null`), or a parsed entry. A `timestamp`
      that is absent or not a number is `None`. */
  datatype CacheSlot =
    | Empty
    | Unparsable
    | Entry(monthlyBudget: JsNumber, totalSpent: real, timestamp: Option<int>)

  /** The figures the mount effect takes from the cache at time `now`, if it takes any: only
      from an entry with a truthy timestamp that is less than the freshness window old. */
  function Restore(slot: CacheSlot, now: int): (r: Option<(JsNumber, real)>)
    ensures r.Some? <==> slot.Entry? && slot.timestamp.Some? && slot.timestamp.value != 0
                         && now - slot.timestamp.value < FreshnessMs
    ensures r.Some? ==> r.value == (slot.monthlyBudget, slot.totalSpent)
  {
    match slot
    case Entry(b, s, Some(t)) =>
      if t != 0 && now - t < FreshnessMs then Some((b, s)) else None
    case _ => None
  }

  /** A written entry read back inside the window gives back the written figures. */
  lemma RestoreWithinWindow(budget: JsNumber, spent: real, writtenAt: int, now: int)
    requires writtenAt != 0 && now - writtenAt < FreshnessMs
    ensures Restore(Entry(budget, spent, Some(writtenAt)), now) == Some((budget, spent))
  {
  }

  /** From exactly ten minutes on, the entry is ignored and the widget fetches. */
  lemma StaleFromTenMinutes(budget: JsNumber, spent: real, writtenAt: int, now: int)
    requires now - writtenAt >= 600000
    ensures Restore(Entry(budget, spent, Some(writtenAt)), now).None?
  {
  }

  /** An empty or malformed slot, or an entry without a timestamp, is ignored. */
  lemma MalformedIgnored(slot: CacheSlot, now: int)
    requires slot == Empty || slot == Unparsable || (slot.Entry? && slot.timestamp.None?)
    ensures Restore(slot, now).None?
  {
  }

  /** The sum shown as "Spent": the amounts of this month's expense records. */
  function TotalSpent(txs: seq<Transaction>, year: int, month: int): (s: real)
    ensures (forall k :: 0 <= k < |txs| ==> !(txs[k].kind == "expense" && InMonth(txs[k].date, year, month))) ==> s == 0.0
  {
    var m := MonthlyOfKind(txs, "expense", year, month);
    assert (forall k :: 0 <= k < |txs| ==> !(txs[k].kind == "expense" && InMonth(txs[k].date, year, month))) ==> m == [] by {
      if m != [] {
        assert m[0] in m;
      }
    }
    SumAmounts(m)
  }

  /** The total counts every expense record of the month once, and nothing else: a record of
      another type or month may be added anywhere without changing it, and one expense
      record of the month adds exactly its amount. */
  lemma TotalSpentCounts(a: seq<Transaction>, t: Transaction, b: seq<Transaction>, year: int, month: int)
    ensures t.kind == "expense" && InMonth(t.date, year, month) ==>
              TotalSpent(a + [t] + b, year, month) == TotalSpent(a + b, year, month) + t.amount
    ensures !(t.kind == "expense" && InMonth(t.date, year, month)) ==>
              TotalSpent(a + [t] + b, year, month) == TotalSpent(a + b, year, month)
  {
    MonthlyOfKindAppend(a + [t], b, "expense", year, month);
    MonthlyOfKindAppend(a, [t], "expense", year, month);
    MonthlyOfKindAppend(a, b, "expense", year, month);
    assert [t][..0] == [];
    var ma, mt, mb := MonthlyOfKind(a, "expense", year, month), MonthlyOfKind([t], "expense", year, month), MonthlyOfKind(b, "expense", year, month);
    SumAmountsAppend(ma + mt, mb);
    SumAmountsAppend(ma, mt);
    SumAmountsAppend(ma, mb);
    assert SumAmounts([t]) == t.amount by { assert [t][..0] == []; }
  }

  /** `getStatusColor` and `getProgressColor` (the same thresholds). */
  function StatusColor(percentageUsed: real): (c: Tone)
    ensures c == Red <==> percentageUsed >= 90.0
    ensures c == Yellow <==> 75.0 <= percentageUsed < 90.0
    ensures c == Green <==> percentageUsed < 75.0
  {
    if percentageUsed >= 90.0 then Red
    else if percentageUsed >= 75.0 then Yellow
    else Green
  }

  function ProgressColor(percentageUsed: real): (c: Tone)
    ensures c == Red <==> percentageUsed >= 90.0
    ensures c == Yellow <==> 75.0 <= percentageUsed < 90.0
    ensures c == Green <==> percentageUsed < 75.0
  {
    if percentageUsed >= 90.0 then Red
    else if percentageUsed >= 75.0 then Yellow
    else Green
  }

  /** The status message under the figures. */
  datatype Advice = CloseToLimit | Approaching | OnTrack

  function AdviceFor(percentageUsed: real): (a: Advice)
    ensures a == CloseToLimit <==> percentageUsed >= 90.0
    ensures a == Approaching <==> 75.0 <= percentageUsed < 90.0
    ensures a == OnTrack <==> percentageUsed < 75.0
  {
    if percentageUsed >= 90.0 then CloseToLimit
    else if percentageUsed >= 75.0 then Approaching
    else OnTrack
  }

  /** The colours and the message change at the same thresholds. */
  lemma ColoursMatchAdvice(p: real)
    ensures StatusColor(p) == ProgressColor(p)
    ensures AdviceFor(p) == CloseToLimit <==> StatusColor(p) == Red
    ensures AdviceFor(p) == Approaching <==> StatusColor(p) == Yellow
    ensures AdviceFor(p) == OnTrack <==> StatusColor(p) == Green
  {
  }

  /** What the widget shows. `remaining` is shown as its magnitude with "over" when negative. */
  datatype View =
    | Skeleton
    | SetBudgetPrompt
    | Summary(percentageUsed: real, colour: Tone, barWidth: real, remaining: real, over: bool,
              daysRemaining: int, dailyAllowance: real, advice: Advice)

  /** The render of the widget for `today`, in a month of `daysInMonth` days. */
  function Render(isLoading: bool, budget: JsNumber, spent: real, daysInMonth: int, today: int): (v: View)
    ensures v == Skeleton <==> isLoading
    ensures v == SetBudgetPrompt <==> !isLoading && !budget.Truthy()
    ensures v.Summary? ==> budget.Num? && v.remaining == budget.value - spent && (v.over <==> v.remaining < 0.0)
    ensures v.Summary? ==> v.percentageUsed * budget.value == spent * 100.0
    ensures v.Summary? ==> v.barWidth == Min(v.percentageUsed, 100.0)
    ensures v.Summary? ==> v.barWidth <= 100.0 && (v.percentageUsed <= 100.0 ==> v.barWidth == v.percentageUsed)
    ensures v.Summary? && v.percentageUsed >= 100.0 ==> v.barWidth == 100.0
    ensures v.Summary? ==> v.colour == StatusColor(v.percentageUsed) && v.advice == AdviceFor(v.percentageUsed)
    ensures v.Summary? ==> v.dailyAllowance >= 0.0
    ensures v.Summary? && 1 <= today <= daysInMonth ==>
              v.daysRemaining >= 1 && v.dailyAllowance == Max(v.remaining / (v.daysRemaining as real), 0.0)
    ensures v.Summary? ==> v.daysRemaining == daysInMonth - today + 1
    ensures v.Summary? && v.daysRemaining > 0 ==> v.dailyAllowance == Max(v.remaining / (v.daysRemaining as real), 0.0)
    ensures v.Summary? && v.daysRemaining <= 0 ==> v.dailyAllowance == 0.0
  {
    if isLoading then Skeleton
    else if !budget.Truthy() then SetBudgetPrompt
    else
      var remaining := budget.value - spent;
      var percentageUsed := spent / budget.value * 100.0;
      var daysRemaining := daysInMonth - today + 1;
      var daily := if daysRemaining > 0 then remaining / (daysRemaining as real) else 0.0;
      Summary(percentageUsed, StatusColor(percentageUsed), Min(percentageUsed, 100.0),
              remaining, remaining < 0.0, daysRemaining, Max(daily, 0.0), AdviceFor(percentageUsed))
  }

  /** A budget of 500.00 with 475.00 spent is 95% used and is "close to budget limit". */
  lemma NearLimitExample()
    ensures Render(false, Num(500.0), 475.0, 30, 10).percentageUsed == 95.0
    ensures Render(false, Num(500.0), 475.0, 30, 10).advice == CloseToLimit
  {
  }

  class ExpensesWidget {
    var totalSpent: real
    var monthlyBudget: JsNumber
    var isLoading: bool
    /** The "monthlyExpensesCache" slot of durable storage. */
    var cache: CacheSlot

    constructor (slot: CacheSlot)
      ensures totalSpent == 0.0 && monthlyBudget == Null && isLoading && cache == slot
    {
      totalSpent := 0.0;
      monthlyBudget := Null;
      isLoading := true;
      cache := slot;
    }

    /** The mount effect at time `now`: takes the figures from a fresh cache entry, or asks for
        a fetch (`fetchNeeded`) and changes nothing. */
    method Mount(now: int) returns (fetchNeeded: bool)
      modifies this
      ensures fetchNeeded <==> Restore(cache, now).None?
      ensures cache == old(cache)
      ensures !fetchNeeded ==> (monthlyBudget, totalSpent) == Restore(cache, now).value && !isLoading
      ensures fetchNeeded ==> totalSpent == old(totalSpent) && monthlyBudget == old(monthlyBudget) && isLoading == old(isLoading)
    {
      var restored := Restore(cache, now);
      if restored.Some? {
        monthlyBudget := restored.value.0;
        totalSpent := restored.value.1;
        isLoading := false;
        fetchNeeded := false;
      } else {
        fetchNeeded := true;
      }
    }

    /** `fetchData`: `budget` is `GET /api/budget/current/` (its body's `amount`),
        `transactions` is `GET /api/transactions/`; `year` and `month` are today's and `now` is
        the clock when the cache is written. A thrown request ends the fetch (and writes no
        cache); a non-ok response leaves its figure as it was and caches null or 0 for it. */
    method FetchData(budget: Fetch<JsNumber>, transactions: Fetch<Listing<Transaction>>, year: int, month: int, now: int)
      modifies this
      ensures !isLoading
      ensures monthlyBudget == (if budget.Ok? then budget.payload else old(monthlyBudget))
      ensures totalSpent == (if !budget.Thrown? && transactions.Ok?
                             then TotalSpent(Items(transactions.payload), year, month)
                             else old(totalSpent))
      ensures cache == (if budget.Thrown? || transactions.Thrown? then old(cache)
                        else Entry(if budget.Ok? then budget.payload else Null,
                                   if transactions.Ok? then TotalSpent(Items(transactions.payload), year, month) else 0.0,
                                   Some(now)))
    {
      if budget.Thrown? {
        isLoading := false;
        return;
      }
      var budgetAmount := Null;
      if budget.Ok? {
        budgetAmount := budget.payload;
        monthlyBudget := budgetAmount;
      }
      if transactions.Thrown? {
        isLoading := false;
        return;
      }
      var total := 0.0;
      if transactions.Ok? {
        total := TotalSpent(Items(transactions.payload), year, month);
        totalSpent := total;
      }
      cache := Entry(budgetAmount, total, Some(now));
      isLoading := false;
    }
  }

  /** A widget that fetched without a thrown request, unmounted, and mounted again within the
      window shows the fetched figures again without a request. */
  method FetchThenRemount(slot: CacheSlot, budget: Fetch<JsNumber>, transactions: Fetch<Listing<Transaction>>,
                          year: int, month: int, writtenAt: int, now: int) returns (again: ExpensesWidget, fetchNeeded: bool)
    requires !budget.Thrown? && !transactions.Thrown?
    requires writtenAt != 0 && now - writtenAt < FreshnessMs
    ensures !fetchNeeded && !again.isLoading
    ensures again.monthlyBudget == (if budget.Ok? then budget.payload else Null)
    ensures again.totalSpent == (if transactions.Ok? then TotalSpent(Items(transactions.payload), year, month) else 0.0)
  {
    var first := new ExpensesWidget(slot);
    first.FetchData(budget, transactions, year, month, writtenAt);
    again := new ExpensesWidget(first.cache);
    fetchNeeded := again.Mount(now);
  }
}

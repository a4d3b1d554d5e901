/** The transaction record returned by `/api/transactions/`, and the month and type filters
    and amount sums that the Expenses, Income and Reports widgets apply to it. Every filter
    here is a JavaScript `Array.prototype.filter`, so it keeps the order of its input; every
    sum is a `reduce` from 0. They recurse on the last element, which is the order in which
    `reduce` and `forEach` visit the records. */
module Ledger {

  /** A date string after `new Date(...)`: a calendar date in local time, or an invalid date
      (whose `getMonth()` is NaN and so equals no month). */
  datatype Date = Date(year: int, month: int, day: int) | InvalidDate

  /** One transaction. `kind` is the JSON field `type` ("income", "expense", or anything else);
      `amount` is the value of `parseFloat(amount)`; `title`, `description` and `category` are ""
      when absent. */
  datatype Transaction = Transaction(
    id: int, kind: string, amount: real, date: Date,
    category: string, title: string, description: string)

  /** A JSON response body that is an array, or an object whose values are taken in key order
      (`Object.values`). */
  datatype Listing<T> = Array(items: seq<T>) | Object(values: seq<T>)

  /** `Array.isArray(data) ? data : Object.values(data)`. */
  function Items<T>(body: Listing<T>): seq<T> {
    match body
    case Array(items) => items
    case Object(values) => values
  }

  /** `d.getMonth() === month && d.getFullYear() === year`. */
  predicate InMonth(d: Date, year: int, month: int) {
    d.Date? && d.year == year && d.month == month
  }

  /** The records dated in the given month (Income.jsx's first filter). */
  function ThisMonth(txs: seq<Transaction>, year: int, month: int): (r: seq<Transaction>)
    ensures |r| <= |txs|
    ensures forall t :: t in r <==> t in txs && InMonth(t.date, year, month)
  {
    if txs == [] then []
    else
      var t := txs[|txs| - 1];
      ThisMonth(txs[..|txs| - 1], year, month) + (if InMonth(t.date, year, month) then [t] else [])
  }

  /** The records whose type is `kind`. */
  function OfKind(txs: seq<Transaction>, kind: string): (r: seq<Transaction>)
    ensures |r| <= |txs|
    ensures forall t :: t in r <==> t in txs && t.kind == kind
  {
    if txs == [] then []
    else
      var t := txs[|txs| - 1];
      OfKind(txs[..|txs| - 1], kind) + (if t.kind == kind then [t] else [])
  }

  /** The records of type `kind` dated in the given month, in one filter (Expenses.jsx). */
  function MonthlyOfKind(txs: seq<Transaction>, kind: string, year: int, month: int): (r: seq<Transaction>)
    ensures |r| <= |txs|
    ensures forall t :: t in r <==> t in txs && t.kind == kind && InMonth(t.date, year, month)
  {
    if txs == [] then []
    else
      var t := txs[|txs| - 1];
      MonthlyOfKind(txs[..|txs| - 1], kind, year, month)
        + (if t.kind == kind && InMonth(t.date, year, month) then [t] else [])
  }

  /** `txs.reduce((sum, t) => sum + t.amount, 0)`. */
  function SumAmounts(txs: seq<Transaction>): real {
    if txs == [] then 0.0 else SumAmounts(txs[..|txs| - 1]) + txs[|txs| - 1].amount
  }

  lemma {:induction false} SumAmountsAppend(a: seq<Transaction>, b: seq<Transaction>)
    ensures SumAmounts(a + b) == SumAmounts(a) + SumAmounts(b)
    decreases |b|
  {
    if b == [] {
      assert a + b == a;
    } else {
      var b' := b[..|b| - 1];
      assert (a + b)[..|a + b| - 1] == a + b';
      SumAmountsAppend(a, b');
    }
  }

  lemma {:induction false} ThisMonthAppend(a: seq<Transaction>, b: seq<Transaction>, year: int, month: int)
    ensures ThisMonth(a + b, year, month) == ThisMonth(a, year, month) + ThisMonth(b, year, month)
    decreases |b|
  {
    if b == [] {
      assert a + b == a;
    } else {
      var b' := b[..|b| - 1];
      assert (a + b)[..|a + b| - 1] == a + b';
      ThisMonthAppend(a, b', year, month);
    }
  }

  lemma {:induction false} MonthlyOfKindAppend(a: seq<Transaction>, b: seq<Transaction>, kind: string, year: int, month: int)
    ensures MonthlyOfKind(a + b, kind, year, month)
         == MonthlyOfKind(a, kind, year, month) + MonthlyOfKind(b, kind, year, month)
    decreases |b|
  {
    if b == [] {
      assert a + b == a;
    } else {
      var b' := b[..|b| - 1];
      assert (a + b)[..|a + b| - 1] == a + b';
      MonthlyOfKindAppend(a, b', kind, year, month);
    }
  }

  lemma {:induction false} OfKindAppend(a: seq<Transaction>, b: seq<Transaction>, kind: string)
    ensures OfKind(a + b, kind) == OfKind(a, kind) + OfKind(b, kind)
    decreases |b|
  {
    if b == [] {
      assert a + b == a;
    } else {
      var b' := b[..|b| - 1];
      assert (a + b)[..|a + b| - 1] == a + b';
      OfKindAppend(a, b', kind);
    }
  }

  /** Filtering by type and month in one pass (Expenses.jsx) selects the same records, in the
      same order, as filtering by month and then by type (Income.jsx). */
  lemma {:induction false} MonthlyOfKindIsTwoFilters(txs: seq<Transaction>, kind: string, year: int, month: int)
    ensures MonthlyOfKind(txs, kind, year, month) == OfKind(ThisMonth(txs, year, month), kind)
  {
    if txs != [] {
      var init, t := txs[..|txs| - 1], txs[|txs| - 1];
      MonthlyOfKindIsTwoFilters(init, kind, year, month);
      var tail := if InMonth(t.date, year, month) then [t] else [];
      OfKindAppend(ThisMonth(init, year, month), tail, kind);
      if InMonth(t.date, year, month) {
        assert [t][..0] == [];
      }
    }
  }

  /** A record of another month, or of another type, inserted anywhere in the list, does not
      change the monthly total of a type. */
  lemma MonthlyTotalIgnores(a: seq<Transaction>, t: Transaction, b: seq<Transaction>, kind: string, year: int, month: int)
    requires t.kind != kind || !InMonth(t.date, year, month)
    ensures SumAmounts(MonthlyOfKind(a + [t] + b, kind, year, month))
         == SumAmounts(MonthlyOfKind(a + b, kind, year, month))
  {
    MonthlyOfKindAppend(a + [t], b, kind, year, month);
    MonthlyOfKindAppend(a, [t], kind, year, month);
    MonthlyOfKindAppend(a, b, kind, year, month);
    assert [t][..0] == [];
    assert MonthlyOfKind([t], kind, year, month) == [];
    assert MonthlyOfKind(a + [t], kind, year, month) == MonthlyOfKind(a, kind, year, month);
  }

  /** When every record is an income or an expense, the income total and the expense total
      together are the total of all amounts. */
  lemma {:induction false} KindsPartition(txs: seq<Transaction>)
    requires forall t :: t in txs ==> t.kind == "income" || t.kind == "expense"
    ensures SumAmounts(OfKind(txs, "income")) + SumAmounts(OfKind(txs, "expense")) == SumAmounts(txs)
  {
    if txs != [] {
      var init, t := txs[..|txs| - 1], txs[|txs| - 1];
      assert forall u :: u in init ==> u in txs;
      KindsPartition(init);
      SumAmountsAppend(OfKind(init, "income"), if t.kind == "income" then [t] else []);
      SumAmountsAppend(OfKind(init, "expense"), if t.kind == "expense" then [t] else []);
      assert [t][..0] == [];
    }
  }
}

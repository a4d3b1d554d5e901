/** The Spending by Category chart of src/components/Reports.jsx: expense records grouped by
    category into a JavaScript object (`categoryTotals`) with a running `total`, then mapped
    to chart entries carrying their share of the total, plus the pie/bar toggle. */
module Reports {
  import opened Common
  import opened Ledger

  /** The body of `GET /api/transactions/`: an array, or an object read through its `results`
      field (`None` when that field is absent or falsy). */
  datatype ReportsBody = Records(items: seq<Transaction>) | Page(results: Option<seq<Transaction>>)

  /** `Array.isArray(response) ? response : response.results || []`. */
  function TransactionsOf(body: ReportsBody): (txs: seq<Transaction>)
    ensures body.Records? ==> txs == body.items
    ensures body.Page? && body.results.Some? ==> txs == body.results.value
    ensures body.Page? && body.results.None? ==> txs == []
  {
    match body
    case Records(items) => items
    case Page(Some(results)) => results
    case Page(None) => []
  }

  /** A JavaScript object with string keys, as its entries in insertion order. (Keys that
      look like array indices, which JavaScript lists first, are not distinguished.) */
  type Entries = seq<(string, real)>

  predicate DistinctKeys(es: Entries) {
    forall i, j :: 0 <= i < j < |es| ==> es[i].0 != es[j].0
  }

  /** The position of `key` among the entries, if it is there. */
  function IndexOf(es: Entries, key: string): (r: Option<nat>)
    ensures r.Some? ==> r.value < |es| && es[r.value].0 == key
    ensures r.Some? ==> forall j :: 0 <= j < r.value ==> es[j].0 != key
    ensures r.None? ==> forall j :: 0 <= j < |es| ==> es[j].0 != key
  {
    if es == [] then None
    else if es[0].0 == key then Some(0)
    else
      var r := IndexOf(es[1..], key);
      if r.Some? then Some(r.value + 1) else None
  }

  /** `obj[key] || 0` for a number-valued object (0 is falsy and gives 0 anyway). */
  function GetOrZero(es: Entries, key: string): real {
    var i := IndexOf(es, key);
    if i.Some? then es[i.value].1 else 0.0
  }

  /** `obj[key] = value`: overwrites an existing key in place, or appends a new one. */
  function Put(es: Entries, key: string, value: real): (r: Entries)
    ensures IndexOf(es, key).Some? ==> r == es[IndexOf(es, key).value := (key, value)]
    ensures IndexOf(es, key).None? ==> r == es + [(key, value)]
  {
    var i := IndexOf(es, key);
    if i.Some? then es[i.value := (key, value)] else es + [(key, value)]
  }

  /** What an assignment `obj[key] = value` promises of an object, whose keys are distinct:
      reading `key` gives `value`, reading any other key gives what it gave before, and the
      keys stay distinct. */
  lemma PutAssigns(es: Entries, key: string, value: real, other: string)
    requires DistinctKeys(es) && other != key
    ensures GetOrZero(Put(es, key, value), key) == value
    ensures GetOrZero(Put(es, key, value), other) == GetOrZero(es, other)
    ensures DistinctKeys(Put(es, key, value))
  {
    var r := Put(es, key, value);
    var j := IndexOf(es, other);
    match IndexOf(es, key) {
      case Some(i) =>
        IndexOfDistinct(r, i);
        if j.Some? {
          IndexOfDistinct(r, j.value);
        }
      case None =>
        IndexOfDistinct(r, |es|);
        if j.Some? {
          IndexOfDistinct(r, j.value);
        } else {
          assert forall k :: 0 <= k < |r| ==> r[k].0 != other;
        }
    }
  }

  /** The sum of the entries' values. */
  function SumValues(es: Entries): real {
    if es == [] then 0.0 else SumValues(es[..|es| - 1]) + es[|es| - 1].1
  }

  /** The sum of the amounts of the records in category `c`. */
  function CategoryTotal(xs: seq<Transaction>, c: string): real {
    if xs == [] then 0.0
    else
      var t := xs[|xs| - 1];
      CategoryTotal(xs[..|xs| - 1], c) + (if t.category == c then t.amount else 0.0)
  }

  /** The distinct categories of the records, in order of first appearance. */
  function Categories(xs: seq<Transaction>): (cs: seq<string>)
    ensures forall i, j :: 0 <= i < j < |cs| ==> cs[i] != cs[j]
  {
    if xs == [] then []
    else
      var t := xs[|xs| - 1];
      var p := Categories(xs[..|xs| - 1]);
      if t.category in p then p else p + [t.category]
  }

  /** Every record's category is listed, and only those. */
  lemma {:induction false} CategoriesCover(xs: seq<Transaction>)
    ensures forall t :: t in xs ==> t.category in Categories(xs)
    ensures forall c :: c in Categories(xs) ==> exists t :: t in xs && t.category == c
  {
    if xs != [] {
      var p, t := xs[..|xs| - 1], xs[|xs| - 1];
      CategoriesCover(p);
      assert p + [t] == xs;
      forall u | u in xs ensures u.category in Categories(xs) {
        if u != t {
          assert u in p;
        }
      }
      forall c | c in Categories(xs) ensures exists u :: u in xs && u.category == c {
        if c in Categories(p) {
          var u :| u in p && u.category == c;
          assert u in xs;
        } else {
          assert t in xs;
        }
      }
    }
  }

  /** The reference for `categoryTotals` after the loop: one entry per distinct category, in
      order of first appearance, holding that category's sum. */
  function CategorySums(xs: seq<Transaction>): Entries {
    var cs := Categories(xs);
    seq(|cs|, k requires 0 <= k < |cs| => (cs[k], CategoryTotal(xs, cs[k])))
  }

  lemma {:induction false} CategoryTotalAbsent(xs: seq<Transaction>, c: string)
    requires c !in Categories(xs)
    ensures CategoryTotal(xs, c) == 0.0
  {
    if xs != [] {
      var init, t := xs[..|xs| - 1], xs[|xs| - 1];
      assert t in xs;
      assert forall u :: u in init ==> u in xs;
      CategoryTotalAbsent(init, c);
    }
  }

  /** All records but the last. */
  function Init(xs: seq<Transaction>): seq<Transaction>
    requires xs != []
  {
    xs[..|xs| - 1]
  }

  function Last(xs: seq<Transaction>): Transaction
    requires xs != []
  {
    xs[|xs| - 1]
  }

  /** In entries with distinct keys, a key is found at its own position. */
  lemma IndexOfDistinct(es: Entries, k: nat)
    requires DistinctKeys(es) && k < |es|
    ensures IndexOf(es, es[k].0) == Some(k)
  {
  }

  /** A listed category is found at its position among the sums. */
  lemma SeenIndex(p: seq<Transaction>, c: string, i: nat)
    requires i < |Categories(p)| && Categories(p)[i] == c
    ensures IndexOf(CategorySums(p), c) == Some(i)
    ensures GetOrZero(CategorySums(p), c) == CategorySums(p)[i].1
  {
    var cs, es := Categories(p), CategorySums(p);
    assert DistinctKeys(es) by {
      forall a, b | 0 <= a < b < |es| ensures es[a].0 != es[b].0 {
        assert es[a].0 == cs[a] && es[b].0 == cs[b];
      }
    }
    IndexOfDistinct(es, i);
  }

  lemma PutAt(es: Entries, key: string, value: real, i: nat)
    requires IndexOf(es, key) == Some(i)
    ensures Put(es, key, value) == es[i := (key, value)]
  {
  }

  /** Entries that agree with `es` everywhere but at `i`, where they hold `e`. */
  lemma UpdatedAt(lhs: Entries, es: Entries, i: nat, e: (string, real))
    requires |lhs| == |es| && i < |es| && lhs[i] == e
    requires forall k :: 0 <= k < |es| && k != i ==> lhs[k] == es[k]
    ensures lhs == es[i := e]
  {
  }

  /** Entries that are `es` followed by `e`. */
  lemma Appended(lhs: Entries, es: Entries, e: (string, real))
    requires |lhs| == |es| + 1 && lhs[|es|] == e
    requires forall k :: 0 <= k < |es| ==> lhs[k] == es[k]
    ensures lhs == es + [e]
  {
  }

  /** The last record's category already listed at position `i`: the categories stay, its
      entry grows by the amount. */
  lemma SeenEntry(xs: seq<Transaction>, i: nat)
    requires xs != [] && i < |Categories(Init(xs))| && Categories(Init(xs))[i] == Last(xs).category
    ensures Categories(xs) == Categories(Init(xs))
    ensures CategorySums(xs)[i] == (Last(xs).category, CategorySums(Init(xs))[i].1 + Last(xs).amount)
  {
    assert Last(xs).category in Categories(Init(xs));
  }

  /** The other entries after a record of a seen category stay as they were. */
  lemma SeenOthers(xs: seq<Transaction>, i: nat)
    requires xs != [] && i < |Categories(Init(xs))| && Categories(Init(xs))[i] == Last(xs).category
    ensures Categories(xs) == Categories(Init(xs))
    ensures forall k :: 0 <= k < |CategorySums(Init(xs))| && k != i ==> CategorySums(xs)[k] == CategorySums(Init(xs))[k]
  {
    var cs, es, lhs := Categories(Init(xs)), CategorySums(Init(xs)), CategorySums(xs);
    assert Last(xs).category in cs;
    forall k | 0 <= k < |es| && k != i ensures lhs[k] == es[k] {
      assert cs[k] != cs[i];
    }
  }

  /** One pass of the `forEach` body, for a category already present at position `i`: its
      entry grows by the amount and keeps its place. */
  lemma CategorySumsStepSeen(xs: seq<Transaction>, i: nat)
    requires xs != [] && i < |Categories(Init(xs))| && Categories(Init(xs))[i] == Last(xs).category
    ensures CategorySums(xs) == CategorySums(Init(xs))[i := (Last(xs).category, CategorySums(Init(xs))[i].1 + Last(xs).amount)]
  {
    SeenEntry(xs, i);
    SeenOthers(xs, i);
    UpdatedAt(CategorySums(xs), CategorySums(Init(xs)), i, (Last(xs).category, CategorySums(Init(xs))[i].1 + Last(xs).amount));
  }

  /** The entries after a record of a new category: the old ones, then one holding the
      amount. */
  lemma NewEntries(xs: seq<Transaction>)
    requires xs != [] && Last(xs).category !in Categories(Init(xs))
    ensures |CategorySums(xs)| == |CategorySums(Init(xs))| + 1
    ensures forall k :: 0 <= k < |CategorySums(Init(xs))| ==> CategorySums(xs)[k] == CategorySums(Init(xs))[k]
    ensures CategorySums(xs)[|CategorySums(Init(xs))|] == (Last(xs).category, Last(xs).amount)
  {
    var c, cs, es, lhs := Last(xs).category, Categories(Init(xs)), CategorySums(Init(xs)), CategorySums(xs);
    assert Categories(xs) == cs + [c];
    forall k | 0 <= k < |es| ensures lhs[k] == es[k] {
      assert cs[k] != c;
    }
    CategoryTotalAbsent(Init(xs), c);
  }

  /** One pass of the `forEach` body, for a new category: an entry holding the amount is
      appended. */
  lemma CategorySumsStepNew(xs: seq<Transaction>)
    requires xs != [] && Last(xs).category !in Categories(Init(xs))
    ensures CategorySums(xs) == Put(CategorySums(Init(xs)), Last(xs).category, GetOrZero(CategorySums(Init(xs)), Last(xs).category) + Last(xs).amount)
  {
    var c, cs, es := Last(xs).category, Categories(Init(xs)), CategorySums(Init(xs));
    assert IndexOf(es, c).None? by {
      forall j | 0 <= j < |es| ensures es[j].0 != c { assert es[j].0 == cs[j]; }
    }
    NewEntries(xs);
    Appended(CategorySums(xs), es, (c, Last(xs).amount));
  }

  /** One pass of the `forEach` body keeps `categoryTotals` equal to the reference. */
  lemma CategorySumsStep(xs: seq<Transaction>)
    requires xs != []
    ensures CategorySums(xs) == Put(CategorySums(Init(xs)), Last(xs).category, GetOrZero(CategorySums(Init(xs)), Last(xs).category) + Last(xs).amount)
  {
    var cs := Categories(Init(xs));
    if Last(xs).category in cs {
      var i :| 0 <= i < |cs| && cs[i] == Last(xs).category;
      SeenPut(xs, i);
    } else {
      CategorySumsStepNew(xs);
    }
  }

  /** `CategorySumsStepSeen` written as the `Put` the loop performs. */
  lemma SeenPut(xs: seq<Transaction>, i: nat)
    requires xs != [] && i < |Categories(Init(xs))| && Categories(Init(xs))[i] == Last(xs).category
    ensures CategorySums(xs) == Put(CategorySums(Init(xs)), Last(xs).category, GetOrZero(CategorySums(Init(xs)), Last(xs).category) + Last(xs).amount)
  {
    var c, es := Last(xs).category, CategorySums(Init(xs));
    SeenIndex(Init(xs), c, i);
    CategorySumsStepSeen(xs, i);
    PutAt(es, c, GetOrZero(es, c) + Last(xs).amount, i);
  }

  lemma {:induction false} SumValuesUpdate(es: Entries, i: nat, e: (string, real))
    requires i < |es|
    ensures SumValues(es[i := e]) == SumValues(es) - es[i].1 + e.1
    decreases |es|
  {
    var n := |es| - 1;
    var es' := es[i := e];
    assert es'[..n] == if i < n then es[..n][i := e] else es[..n];
    if i < n {
      SumValuesUpdate(es[..n], i, e);
    }
  }

  /** The values of `categoryTotals` add up to `total`. */
  lemma {:induction false} CategorySumsTotal(xs: seq<Transaction>)
    ensures SumValues(CategorySums(xs)) == SumAmounts(xs)
  {
    if xs == [] {
      assert CategorySums(xs) == [];
    } else {
      var p, t := xs[..|xs| - 1], xs[|xs| - 1];
      CategorySumsTotal(p);
      CategorySumsStep(xs);
      var es := CategorySums(p);
      var i := IndexOf(es, t.category);
      if i.Some? {
        SumValuesUpdate(es, i.value, (t.category, GetOrZero(es, t.category) + t.amount));
      } else {
        var es' := es + [(t.category, t.amount)];
        assert es'[..|es'| - 1] == es;
      }
    }
  }

  /** The `forEach` loop: `categoryTotals` and `total` over the expense records. */
  method Aggregate(expenses: seq<Transaction>) returns (categoryTotals: Entries, total: real)
    ensures categoryTotals == CategorySums(expenses)
    ensures total == SumAmounts(expenses)
  {
    categoryTotals := [];
    total := 0.0;
    var i := 0;
    while i < |expenses|
      invariant 0 <= i <= |expenses|
      invariant categoryTotals == CategorySums(expenses[..i])
      invariant total == SumAmounts(expenses[..i])
    {
      var item := expenses[i];
      var cat := item.category;
      var amt := item.amount;
      total := total + amt;
      categoryTotals := Put(categoryTotals, cat, GetOrZero(categoryTotals, cat) + amt);
      assert expenses[..i + 1][..i] == expenses[..i];
      CategorySumsStep(expenses[..i + 1]);
      i := i + 1;
    }
    assert expenses[..i] == expenses;
  }

  /** One bar or pie slice; `percent` is before `toFixed(1)`. */
  datatype ChartEntry = ChartEntry(name: string, value: real, percent: real)

  /** `Object.entries(categoryTotals).map(...)`. */
  function Format(es: Entries, total: real): (r: seq<ChartEntry>)
    ensures |r| == |es|
    ensures forall k :: 0 <= k < |r| ==> r[k].name == es[k].0 && r[k].value == es[k].1
    ensures forall k :: 0 <= k < |r| ==> (total > 0.0 ==> r[k].percent * total == r[k].value * 100.0)
    ensures total <= 0.0 ==> forall k :: 0 <= k < |r| ==> r[k].percent == 0.0
  {
    seq(|es|, k requires 0 <= k < |es| => ChartEntry(es[k].0, es[k].1, if total > 0.0 then es[k].1 / total * 100.0 else 0.0))
  }

  /** The sum of the entries' percentages. */
  function SumPercents(r: seq<ChartEntry>): real {
    if r == [] then 0.0 else SumPercents(r[..|r| - 1]) + r[|r| - 1].percent
  }

  /** With a positive total the percentages are the values' share of it. */
  lemma {:induction false} FormatPercents(es: Entries, total: real)
    requires total > 0.0
    ensures SumPercents(Format(es, total)) * total == SumValues(es) * 100.0
  {
    if es != [] {
      var n := |es| - 1;
      var r := Format(es, total);
      assert r[..n] == Format(es[..n], total);
      FormatPercents(es[..n], total);
      var before, last := SumPercents(r[..n]), r[n].percent;
      assert SumPercents(r) == before + last;
      Distribute(before, last, total);
      assert last * total == es[n].1 * 100.0;
    }
  }

  lemma Distribute(a: real, b: real, t: real)
    ensures (a + b) * t == a * t + b * t
  {
  }

  /** The chart data for a settled fetch: only expense records, grouped; nothing for no
      expenses, or when the request fails. */
  function ChartData(reply: Fetch<ReportsBody>): (data: seq<ChartEntry>)
    ensures !reply.Ok? ==> data == []
    ensures reply.Ok? ==> (data == [] <==> OfKind(TransactionsOf(reply.payload), "expense") == [])
  {
    if !reply.Ok? then []
    else
      var expenses := OfKind(TransactionsOf(reply.payload), "expense");
      if expenses == [] then []
      else
        CategoriesCover(expenses);
        assert expenses[0].category in Categories(expenses);
        Format(CategorySums(expenses), SumAmounts(expenses))
  }

  /** Each category of the expense records has exactly one entry, holding its sum, and the
      values add up to the expense total. */
  lemma ChartDataSummary(reply: Fetch<ReportsBody>)
    requires reply.Ok? && OfKind(TransactionsOf(reply.payload), "expense") != []
    ensures var expenses := OfKind(TransactionsOf(reply.payload), "expense");
            var data := ChartData(reply);
            && (forall t :: t in expenses ==> exists k :: 0 <= k < |data| && data[k].name == t.category)
            && (forall i, j :: 0 <= i < j < |data| ==> data[i].name != data[j].name)
            && (forall k :: 0 <= k < |data| ==> data[k].value == CategoryTotal(expenses, data[k].name))
            && SumValues(CategorySums(expenses)) == SumAmounts(expenses)
  {
    var expenses := OfKind(TransactionsOf(reply.payload), "expense");
    var cs := Categories(expenses);
    var data := ChartData(reply);
    CategoriesCover(expenses);
    forall t | t in expenses ensures exists k :: 0 <= k < |data| && data[k].name == t.category {
      var k :| 0 <= k < |cs| && cs[k] == t.category;
      assert data[k].name == cs[k];
    }
    CategorySumsTotal(expenses);
  }

  lemma PercentsAddUp(es: Entries, total: real)
    requires total > 0.0 && SumValues(es) == total
    ensures SumPercents(Format(es, total)) == 100.0
  {
    FormatPercents(es, total);
    var s := SumPercents(Format(es, total));
    Cancel(s, 100.0, total);
  }

  lemma Cancel(x: real, y: real, t: real)
    requires t > 0.0 && x * t == y * t
    ensures x == y
  {
    assert x == (x * t) / t;
    assert y == (y * t) / t;
  }

  /** With a positive expense total, the percentages shown add up to 100. */
  lemma ChartPercents(reply: Fetch<ReportsBody>)
    requires reply.Ok?
    requires SumAmounts(OfKind(TransactionsOf(reply.payload), "expense")) > 0.0
    ensures SumPercents(ChartData(reply)) == 100.0
  {
    var expenses := OfKind(TransactionsOf(reply.payload), "expense");
    assert expenses != [];
    CategorySumsTotal(expenses);
    PercentsAddUp(CategorySums(expenses), SumAmounts(expenses));
  }

  datatype ChartType = Pie | BarChart

  function Toggled(t: ChartType): (r: ChartType)
    ensures r != t
  {
    if t == Pie then BarChart else Pie
  }

  lemma ToggleInvolution(t: ChartType)
    ensures Toggled(Toggled(t)) == t
  {
  }

  class ReportsWidget {
    var data: seq<ChartEntry>
    var chartType: ChartType

    constructor ()
      ensures data == [] && chartType == Pie
    {
      data := [];
      chartType := Pie;
    }

    /** The effect on `authToken`: without a token nothing is fetched (`fetched` false) and the
        data stays; otherwise `reply` is the settled `GET /api/transactions/`. */
    method Load(authToken: Option<string>, reply: Fetch<ReportsBody>) returns (fetched: bool)
      modifies this
      ensures fetched <==> authToken.Some? && authToken.value != ""
      ensures data == (if fetched then ChartData(reply) else old(data))
      ensures chartType == old(chartType)
    {
      if authToken.None? || authToken.value == "" {
        return false;
      }
      fetched := true;
      if !reply.Ok? {
        data := [];
        return;
      }
      var expenses := OfKind(TransactionsOf(reply.payload), "expense");
      if |expenses| == 0 {
        data := [];
        return;
      }
      var categoryTotals, total := Aggregate(expenses);
      data := Format(categoryTotals, total);
    }

    /** The Bar/Pie button. */
    method ToggleChart()
      modifies this
      ensures chartType == Toggled(old(chartType)) && data == old(data)
    {
      chartType := if chartType == Pie then BarChart else Pie;
    }
  }
}

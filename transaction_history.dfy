/** The Transaction History list of src/components/TransactionHistory.jsx: the token guard and
    fetch, deletion, the single expanded row, and the label and sign of each row. */
module TransactionHistory {
  import opened Common
  import opened Ledger

  /** A row's title: `item.title || item.description || "Untitled Transaction"`. */
  function Label(t: Transaction): (s: string)
    ensures s != ""
    ensures t.title != "" ==> s == t.title
    ensures t.title == "" && t.description != "" ==> s == t.description
    ensures t.title == "" && t.description == "" ==> s == "Untitled Transaction"
  {
    if t.title != "" then t.title
    else if t.description != "" then t.description
    else "Untitled Transaction"
  }

  /** A row's sign and colour: "+" (green) exactly for income, "-" (red) for any other type. */
  function Sign(t: Transaction): (s: string)
    ensures s == "+" <==> t.kind == "income"
    ensures s == "+" || s == "-"
  {
    if t.kind == "income" then "+" else "-"
  }

  /** `toggleExpand(id)`'s new `expandedId`. */
  function Toggled(expandedId: Option<int>, id: int): (r: Option<int>)
    ensures r == Some(id) <==> expandedId != Some(id)
    ensures r.None? <==> expandedId == Some(id)
  {
    if expandedId == Some(id) then None else Some(id)
  }

  /** A row shows its details when its id is the expanded one: after a toggle, the clicked row
      is open exactly when it was closed, and every other row is closed. */
  lemma ToggleOpensOneRow(expandedId: Option<int>, id: int, other: int)
    requires other != id
    ensures (Toggled(expandedId, id) == Some(id)) == (expandedId != Some(id))
    ensures Toggled(expandedId, id) != Some(other)
  {
  }

  /** The rows without the deleted one: `transactions.filter(transaction => transaction.id !== id)`. */
  function WithoutTransaction(txs: seq<Transaction>, id: int): (r: seq<Transaction>)
    ensures |r| <= |txs|
    ensures forall t :: t in r <==> t in txs && t.id != id
  {
    Filter(txs, (t: Transaction) => t.id != id)
  }

  /** Deletion keeps the other rows in order, and leaves a list without that id as it is. */
  lemma DeleteKeepsOrder(a: seq<Transaction>, b: seq<Transaction>, id: int)
    ensures WithoutTransaction(a + b, id) == WithoutTransaction(a, id) + WithoutTransaction(b, id)
    ensures (forall i :: 0 <= i < |a| ==> a[i].id != id) ==> WithoutTransaction(a, id) == a
  {
    FilterAppend(a, b, (t: Transaction) => t.id != id);
    if forall i :: 0 <= i < |a| ==> a[i].id != id {
      FilterKeepsAll(a, (t: Transaction) => t.id != id);
    }
  }

  /** The placeholder is shown only while the list is empty and there is no token. */
  predicate ShowsSkeleton(transactions: seq<Transaction>, authToken: Option<string>): (b: bool)
    ensures b ==> transactions == []
    ensures authToken.Some? && authToken.value != "" ==> !b
    ensures transactions == [] && (authToken.None? || authToken.value == "") ==> b
  {
    |transactions| == 0 && !(authToken.Some? && authToken.value != "")
  }

  class HistoryList {
    var transactions: seq<Transaction>
    var expandedId: Option<int>

    constructor ()
      ensures transactions == [] && expandedId.None?
    {
      transactions := [];
      expandedId := None;
    }

    /** The effect on `authToken`: without a truthy token it navigates to `/login` and fetches
        nothing; otherwise a 2xx body, an array or an object's values, replaces the rows, and a
        non-2xx status or thrown error leaves them. */
    method Load(authToken: Option<string>, reply: Fetch<Listing<Transaction>>) returns (nav: Option<Navigation>, fetched: bool)
      modifies this
      ensures fetched <==> authToken.Some? && authToken.value != ""
      ensures nav.Some? <==> !fetched
      ensures nav.Some? ==> nav.value == Navigate("/login", false)
      ensures transactions == (if fetched && reply.Ok? then Items(reply.payload) else old(transactions))
      ensures expandedId == old(expandedId)
    {
      if authToken.None? || authToken.value == "" {
        return Some(Navigate("/login", false)), false;
      }
      nav, fetched := None, true;
      if reply.Ok? {
        transactions := Items(reply.payload);
      }
    }

    /** `handleDelete(id)`: a 2xx response removes that row; a non-2xx status or thrown error
        leaves the list. */
    method Delete(id: int, reply: Fetch<()>)
      modifies this
      ensures transactions == (if reply.Ok? then WithoutTransaction(old(transactions), id) else old(transactions))
      ensures expandedId == old(expandedId)
    {
      if reply.Ok? {
        transactions := Filter(transactions, (t: Transaction) => t.id != id);
      }
    }

    /** `toggleExpand(id)`. */
    method ToggleExpand(id: int)
      modifies this
      ensures expandedId == Toggled(old(expandedId), id)
      ensures transactions == old(transactions)
    {
      expandedId := if expandedId == Some(id) then None else Some(id);
    }
  }
}

/**
 * The dashboard's totals: the fetched transactions are folded into an income
 * total (rows whose type is exactly "income") and an expense total (every
 * other row); the balance is their difference, and each category label is
 * shown with its first character upper-cased.
 */
module Dashboard {
  import opened Wrappers

  /** A transaction as the dashboard receives it. */
  datatype Row = Row(kind: string, amount: real, category: string)

  predicate IsIncome(r: Row)
  {
    r.kind == "income"
  }

  /** The sum of all amounts, in list order. */
  function Sum(rows: seq<Row>): real
  {
    if |rows| == 0 then 0.0 else Sum(rows[..|rows| - 1]) + rows[|rows| - 1].amount
  }

  /** The rows on one side of the `tx.type === "income"` test, in list order. */
  function Select(rows: seq<Row>, income: bool): (r: seq<Row>)
    ensures forall i :: 0 <= i < |r| ==> IsIncome(r[i]) == income
  {
    if |rows| == 0 then []
    else
      var last := rows[|rows| - 1];
      Select(rows[..|rows| - 1], income) + (if IsIncome(last) == income then [last] else [])
  }

  function Income(rows: seq<Row>): real
  {
    Sum(Select(rows, true))
  }

  function Expense(rows: seq<Row>): real
  {
    Sum(Select(rows, false))
  }

  /** Each amount counted with its sign: plus for income, minus for anything else. */
  function Net(rows: seq<Row>): real
  {
    if |rows| == 0 then 0.0
    else
      var last := rows[|rows| - 1];
      Net(rows[..|rows| - 1]) + (if IsIncome(last) then last.amount else -last.amount)
  }

  lemma SumSnoc(rows: seq<Row>, x: Row)
    ensures Sum(rows + [x]) == Sum(rows) + x.amount
  {
    assert (rows + [x])[..|rows|] == rows;
  }

  /** Appending a row extends exactly the selection of its side. */
  lemma SelectSnoc(rows: seq<Row>, x: Row)
    ensures Select(rows + [x], IsIncome(x)) == Select(rows, IsIncome(x)) + [x]
    ensures Select(rows + [x], !IsIncome(x)) == Select(rows, !IsIncome(x))
  {
    assert (rows + [x])[..|rows|] == rows;
    assert Select(rows, !IsIncome(x)) + [] == Select(rows, !IsIncome(x));
  }

  /** Every row lands on exactly one side: the two selections together are the whole list. */
  lemma {:induction false} SelectPartition(rows: seq<Row>)
    ensures multiset(Select(rows, true)) + multiset(Select(rows, false)) == multiset(rows)
  {
    if |rows| > 0 {
      SelectPartition(rows[..|rows| - 1]);
      PartitionStep(rows);
    }
  }

  /** Adding one element to either part of a split multiset adds it to the whole. */
  lemma AddToPart<T>(a: multiset<T>, b: multiset<T>, x: T)
    ensures (a + multiset{x}) + b == (a + b) + multiset{x}
    ensures a + (b + multiset{x}) == (a + b) + multiset{x}
  {
  }

  /** The partition of a non-empty list follows from the partition of the list without its last row. */
  lemma PartitionStep(rows: seq<Row>)
    requires |rows| > 0
    requires var init := rows[..|rows| - 1];
      multiset(Select(init, true)) + multiset(Select(init, false)) == multiset(init)
    ensures multiset(Select(rows, true)) + multiset(Select(rows, false)) == multiset(rows)
  {
    var init, last := rows[..|rows| - 1], rows[|rows| - 1];
    assert rows == init + [last];
    SelectSnoc(init, last);
    var si, se := Select(init, true), Select(init, false);
    assert multiset(rows) == multiset(init) + multiset{last};
    AddToPart(multiset(si), multiset(se), last);
    if IsIncome(last) {
      assert Select(rows, true) == si + [last] && Select(rows, false) == se;
      assert multiset(si + [last]) == multiset(si) + multiset{last};
    } else {
      assert Select(rows, true) == si && Select(rows, false) == se + [last];
      assert multiset(se + [last]) == multiset(se) + multiset{last};
    }
  }

  /** A row whose type is not exactly "income" counts as an expense. */
  lemma NonIncomeIsExpense(rows: seq<Row>, i: nat)
    requires i < |rows| && !IsIncome(rows[i])
    ensures rows[i] in Select(rows, false) && rows[i] !in Select(rows, true)
  {
    SelectPartition(rows);
    assert rows[i] in multiset(rows);
  }

  /** Income and expense together are the sum of all amounts. */
  lemma {:induction false} TotalsPartition(rows: seq<Row>)
    ensures Income(rows) + Expense(rows) == Sum(rows)
  {
    if |rows| > 0 {
      var init, last := rows[..|rows| - 1], rows[|rows| - 1];
      TotalsPartition(init);
      SelectSnoc(init, last);
      if IsIncome(last) {
        SumSnoc(Select(init, true), last);
      } else {
        SumSnoc(Select(init, false), last);
      }
    }
  }

  /** The balance is the signed sum of the amounts. */
  lemma {:induction false} BalanceIsNet(rows: seq<Row>)
    ensures Income(rows) - Expense(rows) == Net(rows)
  {
    if |rows| > 0 {
      var init, last := rows[..|rows| - 1], rows[|rows| - 1];
      BalanceIsNet(init);
      SelectSnoc(init, last);
      if IsIncome(last) {
        SumSnoc(Select(init, true), last);
      } else {
        SumSnoc(Select(init, false), last);
      }
    }
  }

  /** No transactions: income, expense and balance are all zero. */
  lemma EmptyListTotals()
    ensures Income([]) == 0.0 && Expense([]) == 0.0 && Net([]) == 0.0
  {
  }

  /** The `forEach` over the fetched rows with its two accumulators. */
  method Accumulate(data: seq<Row>) returns (totalIncome: real, totalExpense: real)
    ensures totalIncome == Income(data) && totalExpense == Expense(data)
  {
    totalIncome, totalExpense := 0.0, 0.0;
    var i := 0;
    while i < |data|
      invariant 0 <= i <= |data|
      invariant totalIncome == Income(data[..i])
      invariant totalExpense == Expense(data[..i])
    {
      var tx := data[i];
      assert data[..i + 1] == data[..i] + [tx];
      SelectSnoc(data[..i], tx);
      if tx.kind == "income" {
        SumSnoc(Select(data[..i], true), tx);
        totalIncome := totalIncome + tx.amount;
      } else {
        SumSnoc(Select(data[..i], false), tx);
        totalExpense := totalExpense + tx.amount;
      }
      i := i + 1;
    }
    assert data[..|data|] == data;
  }

  /** `toUpperCase` of one character, for the ASCII letters. */
  function UpperAscii(c: char): char
  {
    if 'a' <= c <= 'z' then (c as int - 32) as char else c
  }

  /** `s.charAt(0).toUpperCase() + s.slice(1)`. */
  function Capitalize(s: string): (r: string)
    ensures |r| == |s|
    ensures forall i :: 1 <= i < |s| ==> r[i] == s[i]
    ensures |s| > 0 ==> r[0] == UpperAscii(s[0]) && !('a' <= r[0] <= 'z')
  {
    if |s| == 0 then "" else [UpperAscii(s[0])] + s[1..]
  }

  /** Capitalising twice is capitalising once. */
  lemma CapitalizeIdempotent(s: string)
    ensures Capitalize(Capitalize(s)) == Capitalize(s)
  {
  }

  /** The answer of the transactions request: the rows, or a failure with the server's message if any. */
  datatype FetchReply = Loaded(rows: seq<Row>) | FetchFailed(message: Option<string>)

  const LoadFailed: string := "Failed to load transactions"

  /** `err.response?.data?.message || "Failed to load transactions"`. */
  function FailureMessage(message: Option<string>): (r: string)
    ensures r != ""
    ensures message.Some? && message.value != "" ==> r == message.value
  {
    if message.Some? && message.value != "" then message.value else LoadFailed
  }

  class DashboardPage {
    var transactions: seq<Row>
    var income: real
    var expense: real
    var error: string

    constructor ()
      ensures transactions == [] && income == 0.0 && expense == 0.0 && error == ""
    {
      transactions, income, expense, error := [], 0.0, 0.0, "";
    }

    function Balance(): real
      reads this
    {
      income - expense
    }

    /** `fetchTransactions`: a failed request leaves the list and the totals as they were. */
    method FetchTransactions(reply: FetchReply)
      modifies this
      ensures reply.Loaded? ==>
        && transactions == reply.rows && error == ""
        && income == Income(reply.rows) && expense == Expense(reply.rows)
        && income + expense == Sum(reply.rows)
        && Balance() == Net(reply.rows)
      ensures reply.FetchFailed? ==>
        && transactions == old(transactions) && income == old(income) && expense == old(expense)
        && error == FailureMessage(reply.message)
    {
      error := "";
      match reply
      case Loaded(data) =>
        transactions := data;
        var totalIncome, totalExpense := Accumulate(data);
        income, expense := totalIncome, totalExpense;
        TotalsPartition(data);
        BalanceIsNet(data);
      case FetchFailed(message) =>
        error := FailureMessage(message);
    }
  }
}

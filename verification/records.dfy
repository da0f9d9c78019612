/** The record shapes the backend gateway returns. Every field is optional, as in
    the dictionaries the gateway hands over; the formatters supply the defaults. */
module Records {
  import opened Options

  datatype VirtualCard = VirtualCard(lastFour: Option<string>, balance: Option<int>)

  /** Amounts are integer cents. `date` is shown as-is, so it stays an opaque string. */
  datatype Transaction = Transaction(
    amount: Option<int>,
    description: Option<string>,
    date: Option<string>,
    category: Option<string>)

  datatype ExpenseCategory = ExpenseCategory(name: Option<string>)

  /** The amount a transaction contributes to a total: a missing amount counts as 0. */
  function AmountOrZero(tx: Transaction): int {
    tx.amount.GetOr(0)
  }

  /** Sum of the amounts, left to right, as `sum(t.get("amount", 0) for t in txs)`. */
  function TotalCents(txs: seq<Transaction>): (r: int)
    ensures |txs| == 0 ==> r == 0
    ensures |txs| == 1 ==> r == AmountOrZero(txs[0])
    ensures (forall k | 0 <= k < |txs| :: txs[k].amount.None?) ==> r == 0
    ensures (forall k | 0 <= k < |txs| :: AmountOrZero(txs[k]) >= 0)
              ==> r >= 0 && forall k | 0 <= k < |txs| :: r >= AmountOrZero(txs[k])
    decreases |txs|
  {
    if |txs| == 0 then 0 else TotalCents(txs[..|txs| - 1]) + AmountOrZero(txs[|txs| - 1])
  }

  /** Totals add up over concatenated lists, so a total does not depend on how the
      list is split into batches. */
  lemma {:induction false} TotalCentsAppend(a: seq<Transaction>, b: seq<Transaction>)
    ensures TotalCents(a + b) == TotalCents(a) + TotalCents(b)
    decreases |b|
  {
    if |b| > 0 {
      assert (a + b)[..|a + b| - 1] == a + b[..|b| - 1];
      TotalCentsAppend(a, b[..|b| - 1]);
    } else {
      assert a + b == a;
    }
  }

  /** Moving one transaction elsewhere in the list leaves the total unchanged. */
  lemma TotalCentsSwap(a: seq<Transaction>, x: Transaction, b: seq<Transaction>)
    ensures TotalCents(a + [x] + b) == TotalCents([x] + a + b)
  {
    TotalCentsAppend(a + [x], b);
    TotalCentsAppend(a, [x]);
    TotalCentsAppend([x] + a, b);
    TotalCentsAppend([x], a);
  }

  /** Summing from the front gives the same total: the first amount plus the rest. */
  lemma TotalCentsHeadFirst(txs: seq<Transaction>)
    requires |txs| > 0
    ensures TotalCents(txs) == AmountOrZero(txs[0]) + TotalCents(txs[1..])
  {
    TotalCentsAppend([txs[0]], txs[1..]);
    assert [txs[0]] + txs[1..] == txs;
  }
}

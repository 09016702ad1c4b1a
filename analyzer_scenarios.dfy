/** Concrete stores on which the analyzer's documented behaviour is checked. */
module AnalyzerScenarios {
  import opened Seqs
  import opened TransactionAnalysis

  const January := Transaction("1", Date(2019, 1, 15), 100.0, "debit", "groceries", "Shop", "Visa")
  const February := Transaction("1", Date(2019, 2, 1), 50.0, "credit", "refund", "Shop", "Visa")

  /** One debit of 100 and one credit of 50: the totals differ but the
      dominant type is decided by count, so it is "equal". */
  lemma DominanceIsByCount(a: TransactionAnalyzer)
    requires a.transactions == [January, February]
    ensures a.CalculateTotalAmount() == 150.0
    ensures a.CalculateTotalDebitAmount() == 100.0
    ensures a.MostTransactionTypes() == "equal"
  {
    var s := [January, February];
    assert s[..1] == [January] && s[1..] == [February] && [February][1..] == [];
    assert HasType("debit")(January) && !HasType("debit")(February);
    assert !HasType("credit")(January) && HasType("credit")(February);
    assert Filter([February], HasType("debit")) == [];
    assert Filter([February], HasType("credit")) == [February];
    assert ByType(s, "debit") == [January];
    assert ByType(s, "credit") == [February];
  }

  /** A January range keeps the January record and drops the February one. */
  lemma DateRangeKeepsJanuary(a: TransactionAnalyzer)
    requires a.transactions == [January, February]
    ensures a.GetTransactionsInDateRange(Date(2019, 1, 1), Date(2019, 1, 31)) == [January]
  {
  }

  /** Of two records sharing id "1", the first in store order is found. */
  lemma DuplicateIdFindsFirst(a: TransactionAnalyzer)
    requires a.transactions == [January, February]
    ensures a.FindTransactionById("1") == Some(January)
  {
  }

  /** One record in January and one in February: the tie goes to January. */
  lemma MonthTieGoesToLowerMonth(a: TransactionAnalyzer)
    requires a.transactions == [January, February]
    ensures IsBusiestMonth(a.transactions, 1)
  {
    var s := [January, February];
    assert s[..1] == [January] && [January][..0] == [];
    forall k ensures MonthCount(s, k) == (if k == 1 then 1 else 0) + (if k == 2 then 1 else 0) {
      assert MonthCount([January], k) == if k == 1 then 1 else 0;
    }
  }
}

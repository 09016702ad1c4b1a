/** The transaction store and query engine of lab1: a `TransactionAnalyzer`
    owns an ordered sequence of transaction records, answers read-only
    queries over it and appends validated records. */
module TransactionAnalysis {
  import opened Seqs

  type Month = m: int | 1 <= m <= 12 witness 1

  /** A calendar date, already parsed from its `YYYY-MM-DD` text. */
  datatype Date = Date(year: int, month: Month, day: int)

  /** Chronological order on dates: lexicographic on (year, month, day). */
  predicate DateLe(a: Date, b: Date)
  {
    a.year < b.year ||
    (a.year == b.year && (a.month < b.month || (a.month == b.month && a.day <= b.day)))
  }

  predicate DateLt(a: Date, b: Date)
  {
    !DateLe(b, a)
  }

  lemma DateLeTransitive(a: Date, b: Date, c: Date)
    requires DateLe(a, b) && DateLe(b, c)
    ensures DateLe(a, c)
  {
  }

  /** One stored record: `transaction_id`, `transaction_date`,
      `transaction_amount`, `transaction_type`, `transaction_description`,
      `merchant_name` and `card_type`. */
  datatype Transaction = Transaction(
    id: string,
    date: Date,
    amount: real,
    txType: string,
    description: string,
    merchantName: string,
    cardType: string)

  function Amount(t: Transaction): real { t.amount }

  function TypeOf(t: Transaction): string { t.txType }

  function Description(t: Transaction): string { t.description }

  function HasType(ty: string): Transaction -> bool
  {
    (t: Transaction) => t.txType == ty
  }

  function HasMerchant(name: string): Transaction -> bool
  {
    (t: Transaction) => t.merchantName == name
  }

  function HasId(id: string): Transaction -> bool
  {
    (t: Transaction) => t.id == id
  }

  function DatedBetween(start: Date, end: Date): Transaction -> bool
  {
    (t: Transaction) => DateLe(start, t.date) && DateLe(t.date, end)
  }

  function DatedBefore(cutoff: Date): Transaction -> bool
  {
    (t: Transaction) => DateLt(t.date, cutoff)
  }

  function AmountBetween(lo: real, hi: real): Transaction -> bool
  {
    (t: Transaction) => t.amount >= lo && t.amount <= hi
  }

  /** An optional criterion restricts only when it is truthy: present and non-zero. */
  predicate Restricts(criterion: Option<int>)
  {
    criterion.Some? && criterion.value != 0
  }

  /** The filter callback of `calculateTotalAmountByDate`. */
  function InPeriod(year: Option<int>, month: Option<int>, day: Option<int>): (q: Transaction -> bool)
    ensures !Restricts(year) && !Restricts(month) && !Restricts(day) ==> forall t :: q(t)
    ensures Restricts(month) && !(1 <= month.value <= 12) ==> forall t :: !q(t)
    ensures forall t: Transaction, u: Transaction :: t.date == u.date ==> q(t) == q(u)
  {
    (t: Transaction) => (!Restricts(year) || t.date.year == year.value) &&
         (!Restricts(month) || t.date.month == month.value) &&
         (!Restricts(day) || t.date.day == day.value)
  }

  /** Each truthy criterion keeps exactly the records whose date part equals
      it, on top of the other criteria; a falsy one keeps what the others keep. */
  lemma PeriodCriterionRestricts(year: Option<int>, month: Option<int>, day: Option<int>)
    ensures Restricts(year) ==> forall t: Transaction ::
              InPeriod(year, month, day)(t) <==> t.date.year == year.value && InPeriod(None, month, day)(t)
    ensures !Restricts(year) ==> forall t: Transaction ::
              InPeriod(year, month, day)(t) == InPeriod(None, month, day)(t)
    ensures Restricts(month) ==> forall t: Transaction ::
              InPeriod(year, month, day)(t) <==> t.date.month == month.value && InPeriod(year, None, day)(t)
    ensures !Restricts(month) ==> forall t: Transaction ::
              InPeriod(year, month, day)(t) == InPeriod(year, None, day)(t)
    ensures Restricts(day) ==> forall t: Transaction ::
              InPeriod(year, month, day)(t) <==> t.date.day == day.value && InPeriod(year, month, None)(t)
    ensures !Restricts(day) ==> forall t: Transaction ::
              InPeriod(year, month, day)(t) == InPeriod(year, month, None)(t)
  {
  }

  /** The sum of the amounts, as the `reduce` from 0 computes it. This is the
      sequence-level definition the lemmas below speak about; the analyzer's
      `CalculateTotalAmount` applies it to the store. */
  function Total(s: seq<Transaction>): real
  {
    SumOf(s, Amount)
  }

  /** The records of type `ty`, in order. The lemmas below speak about any
      sequence; the analyzer's `GetTransactionsByType` applies this to the store. */
  function ByType(s: seq<Transaction>, ty: string): seq<Transaction>
  {
    Filter(s, HasType(ty))
  }

  predicate AllTypesKnown(s: seq<Transaction>)
  {
    forall i :: 0 <= i < |s| ==> s[i].txType == "debit" || s[i].txType == "credit"
  }

  /** When every record is a debit or a credit, the records that are not
      debits are exactly the credits. */
  lemma {:induction false} NonDebitsAreCredits(s: seq<Transaction>)
    requires AllTypesKnown(s)
    ensures Filter(s, Not(HasType("debit"))) == ByType(s, "credit")
  {
    FilterAgree(s, Not(HasType("debit")), HasType("credit"));
  }

  /** The debit total and the credit total add up to the grand total. */
  lemma TotalIsDebitPlusCredit(s: seq<Transaction>)
    requires AllTypesKnown(s)
    ensures Total(ByType(s, "debit")) + Total(ByType(s, "credit")) == Total(s)
  {
    SumOfPartition(s, HasType("debit"), Amount);
    NonDebitsAreCredits(s);
  }

  /** Every record is counted once, as a debit or as a credit. */
  lemma DebitAndCreditCountsCoverStore(s: seq<Transaction>)
    requires AllTypesKnown(s)
    ensures |ByType(s, "debit")| + |ByType(s, "credit")| == |s|
  {
    FilterPartitionLength(s, HasType("debit"));
    NonDebitsAreCredits(s);
  }

  /** Appending a record raises the total by exactly its amount. */
  lemma TotalAfterAppend(s: seq<Transaction>, t: Transaction)
    ensures Total(s + [t]) == Total(s) + t.amount
  {
  }

  /** With no truthy criterion, every record is in the period. */
  lemma UnrestrictedPeriodIsTotal(s: seq<Transaction>, year: Option<int>, month: Option<int>, day: Option<int>)
    requires !Restricts(year) && !Restricts(month) && !Restricts(day)
    ensures Total(Filter(s, InPeriod(year, month, day))) == Total(s)
  {
    FilterKeepsAll(s, InPeriod(year, month, day));
  }

  /** The three criteria combine with AND: filtering by year alone and then
      by month and day gives the same records as filtering by all three. */
  lemma {:induction false} PeriodCriteriaConjoin(s: seq<Transaction>, year: Option<int>, month: Option<int>, day: Option<int>)
    ensures Filter(Filter(s, InPeriod(year, None, None)), InPeriod(None, month, day))
         == Filter(s, InPeriod(year, month, day))
    decreases |s|
  {
    if s != [] {
      PeriodCriteriaConjoin(s[1..], year, month, day);
    }
  }

  function InMonth(m: int): Transaction -> bool
  {
    (t: Transaction) => t.date.month == m
  }

  /** Records dated in month `m`, counted as the `forEach` accumulates them. */
  function MonthCount(s: seq<Transaction>, m: int): (r: nat)
    ensures r <= |s|
  {
    if s == [] then 0
    else MonthCount(s[..|s| - 1], m) + (if s[|s| - 1].date.month == m then 1 else 0)
  }

  /** The count of month `m` is the number of records a filter on the month keeps. */
  lemma {:induction false} MonthCountIsFilterLength(s: seq<Transaction>, m: int)
    ensures MonthCount(s, m) == |Filter(s, InMonth(m))|
    decreases |s|
  {
    if s != [] {
      var init, last := s[..|s| - 1], s[|s| - 1];
      assert s == init + [last];
      MonthCountIsFilterLength(init, m);
      FilterAppend(init, [last], InMonth(m));
      assert [last][1..] == [];
    }
  }

  /** The month of any stored record has a non-zero count. */
  lemma {:induction false} MonthCountOfMember(s: seq<Transaction>, i: nat)
    requires i < |s|
    ensures MonthCount(s, s[i].date.month) >= 1
    decreases |s|
  {
    if i < |s| - 1 {
      MonthCountOfMember(s[..|s| - 1], i);
    }
  }

  /** `m` has the largest count, and every lower month has a smaller count:
      the strict `>` scan over months in ascending order keeps the lowest of
      the tied months. */
  ghost predicate IsBusiestMonth(s: seq<Transaction>, m: int)
  {
    1 <= m <= 12 &&
    (forall k :: 1 <= k <= 12 ==> MonthCount(s, k) <= MonthCount(s, m)) &&
    (forall k :: 1 <= k < m ==> MonthCount(s, k) < MonthCount(s, m))
  }

  /** At most one month is the busiest. */
  lemma BusiestMonthIsUnique(s: seq<Transaction>, a: int, b: int)
    requires IsBusiestMonth(s, a) && IsBusiestMonth(s, b)
    ensures a == b
  {
    assert MonthCount(s, a) <= MonthCount(s, b) && MonthCount(s, b) <= MonthCount(s, a);
  }

  /** A busy month of a non-empty store holds at least one record. */
  lemma BusiestMonthIsOccupied(s: seq<Transaction>, m: int)
    requires s != [] && IsBusiestMonth(s, m)
    ensures MonthCount(s, m) >= 1
  {
    MonthCountOfMember(s, 0);
  }

  /** For an empty store the busiest month is January. */
  lemma BusiestMonthOfEmptyStore(m: int)
    requires IsBusiestMonth([], m)
    ensures m == 1
  {
    assert MonthCount([], 1) == 0 && MonthCount([], m) == 0;
  }

  /** The untyped object handed to `addTransaction`, with each required key
      present or absent. */
  datatype AmountValue = Number(value: real) | NonNumber

  datatype Candidate = Candidate(
    transactionId: Option<string>,
    transactionDate: Option<Date>,
    transactionAmount: Option<AmountValue>,
    transactionType: Option<string>,
    transactionDescription: Option<string>,
    merchantName: Option<string>,
    cardType: Option<string>)

  datatype Field =
    | TransactionIdField
    | TransactionDateField
    | TransactionAmountField
    | TransactionTypeField
    | TransactionDescriptionField
    | MerchantNameField
    | CardTypeField

  /** The keys checked, in the order they are checked. */
  const RequiredFields: seq<Field> := [
    TransactionIdField, TransactionDateField, TransactionAmountField, TransactionTypeField,
    TransactionDescriptionField, MerchantNameField, CardTypeField]

  predicate Has(c: Candidate, f: Field)
  {
    match f
    case TransactionIdField => c.transactionId.Some?
    case TransactionDateField => c.transactionDate.Some?
    case TransactionAmountField => c.transactionAmount.Some?
    case TransactionTypeField => c.transactionType.Some?
    case TransactionDescriptionField => c.transactionDescription.Some?
    case MerchantNameField => c.merchantName.Some?
    case CardTypeField => c.cardType.Some?
  }

  /** Every required key is present. */
  predicate HasAllFields(c: Candidate)
  {
    forall i :: 0 <= i < |RequiredFields| ==> Has(c, RequiredFields[i])
  }

  predicate TypeAccepted(c: Candidate)
  {
    c.transactionType.Some? && c.transactionType.value in ["debit", "credit"]
  }

  predicate AmountAccepted(c: Candidate)
  {
    c.transactionAmount.Some? && c.transactionAmount.value.Number? &&
    !(c.transactionAmount.value.value < 0.0)
  }

  predicate IsValid(c: Candidate)
  {
    HasAllFields(c) && TypeAccepted(c) && AmountAccepted(c)
  }

  datatype ValidationError = MissingField(field: Field) | InvalidType | InvalidAmount

  /** The first failing check of the validator is `e`: the first absent key
      in the listed order, then the type, then the amount. */
  ghost predicate Rejects(c: Candidate, e: ValidationError)
  {
    match e
    case MissingField(f) =>
      exists i :: 0 <= i < |RequiredFields| && RequiredFields[i] == f && !Has(c, f) &&
                  forall j :: 0 <= j < i ==> Has(c, RequiredFields[j])
    case InvalidType => HasAllFields(c) && !TypeAccepted(c)
    case InvalidAmount => HasAllFields(c) && TypeAccepted(c) && !AmountAccepted(c)
  }

  lemma MissingFieldMeansIncomplete(c: Candidate, f: Field)
    requires Rejects(c, MissingField(f))
    ensures !HasAllFields(c)
  {
  }

  /** A valid candidate is rejected by no check, and an invalid one by exactly one. */
  lemma RejectionIsDetermined(c: Candidate, e1: ValidationError, e2: ValidationError)
    requires Rejects(c, e1) && Rejects(c, e2)
    ensures !IsValid(c) && e1 == e2
  {
    if e1.MissingField? {
      MissingFieldMeansIncomplete(c, e1.field);
    }
    if e2.MissingField? {
      MissingFieldMeansIncomplete(c, e2.field);
    }
    if e1.MissingField? && e2.MissingField? {
      var i1 :| 0 <= i1 < |RequiredFields| && RequiredFields[i1] == e1.field && !Has(c, e1.field) &&
                forall j :: 0 <= j < i1 ==> Has(c, RequiredFields[j]);
      var i2 :| 0 <= i2 < |RequiredFields| && RequiredFields[i2] == e2.field && !Has(c, e2.field) &&
                forall j :: 0 <= j < i2 ==> Has(c, RequiredFields[j]);
      assert !(i1 < i2) && !(i2 < i1);
    }
  }

  /** The record stored for a candidate that passed validation. */
  function ToTransaction(c: Candidate): Transaction
    requires IsValid(c)
  {
    assert Has(c, RequiredFields[0]) && Has(c, RequiredFields[1]) && Has(c, RequiredFields[2]) &&
           Has(c, RequiredFields[4]) && Has(c, RequiredFields[5]) && Has(c, RequiredFields[6]);
    Transaction(c.transactionId.value, c.transactionDate.value, c.transactionAmount.value.value,
                c.transactionType.value, c.transactionDescription.value, c.merchantName.value,
                c.cardType.value)
  }

  class TransactionAnalyzer {
    var transactions: seq<Transaction>

    constructor (initial: seq<Transaction>)
      ensures transactions == initial
    {
      transactions := initial;
    }

    /** The distinct types, each listed once, in order of first appearance. */
    function GetUniqueTransactionTypes(): (r: seq<string>)
      reads this
      ensures forall ty :: ty in r <==> ty in MapSeq(transactions, TypeOf)
      ensures forall i, j :: 0 <= i < j < |r| ==> r[i] != r[j]
      ensures forall i, j :: 0 <= i < j < |r| ==>
                FirstIndex(MapSeq(transactions, TypeOf), r[i]) < FirstIndex(MapSeq(transactions, TypeOf), r[j])
    {
      var types := MapSeq(transactions, TypeOf);
      DistinctFirstSeenOrder(types);
      Distinct(types)
    }

    /** The sum of all amounts, whatever their types. */
    function CalculateTotalAmount(): (r: real)
      reads this
      ensures r == Total(transactions)
      ensures transactions == [] ==> r == 0.0
      ensures (forall i :: 0 <= i < |transactions| ==> transactions[i].amount >= 0.0) ==> r >= 0.0
      ensures AllTypesKnown(transactions) ==>
                r == Total(ByType(transactions, "debit")) + Total(ByType(transactions, "credit"))
    {
      assert AllTypesKnown(transactions) ==>
               Total(transactions) == Total(ByType(transactions, "debit")) + Total(ByType(transactions, "credit")) by {
        if AllTypesKnown(transactions) {
          TotalIsDebitPlusCredit(transactions);
        }
      }
      Total(transactions)
    }

    /** The sum of the amounts of the records in the given period; a falsy
        criterion (absent or 0) does not restrict. */
    function CalculateTotalAmountByDate(year: Option<int>, month: Option<int>, day: Option<int>): (r: real)
      reads this
      ensures r == Total(Filter(transactions, InPeriod(year, month, day)))
      ensures !Restricts(year) && !Restricts(month) && !Restricts(day) ==> r == CalculateTotalAmount()
      ensures (forall i :: 0 <= i < |transactions| ==> transactions[i].amount >= 0.0) ==>
                0.0 <= r <= CalculateTotalAmount()
    {
      var r := Total(Filter(transactions, InPeriod(year, month, day)));
      assert !Restricts(year) && !Restricts(month) && !Restricts(day) ==> r == Total(transactions) by {
        if !Restricts(year) && !Restricts(month) && !Restricts(day) {
          UnrestrictedPeriodIsTotal(transactions, year, month, day);
        }
      }
      assert (forall i :: 0 <= i < |transactions| ==> transactions[i].amount >= 0.0) ==>
               0.0 <= r <= Total(transactions) by {
        if forall i :: 0 <= i < |transactions| ==> transactions[i].amount >= 0.0 {
          SumOfFilterAtMost(transactions, InPeriod(year, month, day), Amount);
        }
      }
      r
    }

    /** The records of type `ty`, in store order. */
    function GetTransactionsByType(ty: string): (r: seq<Transaction>)
      reads this
      ensures forall t :: t in r <==> t in transactions && t.txType == ty
      ensures SelectsExactly(r, transactions, HasType(ty))
    {
      FilterSelectsExactly(transactions, HasType(ty));
      ByType(transactions, ty)
    }

    /** The records dated from `start` to `end`, both included, in store order. */
    function GetTransactionsInDateRange(start: Date, end: Date): (r: seq<Transaction>)
      reads this
      ensures forall t :: t in r <==> t in transactions && DateLe(start, t.date) && DateLe(t.date, end)
      ensures SelectsExactly(r, transactions, DatedBetween(start, end))
      ensures DateLt(end, start) ==> r == []
    {
      FilterSelectsExactly(transactions, DatedBetween(start, end));
      var r := Filter(transactions, DatedBetween(start, end));
      assert r != [] ==> DateLe(start, end) by {
        if r != [] {
          assert r[0] in r;
          DateLeTransitive(start, r[0].date, end);
        }
      }
      r
    }

    /** The records of merchant `name`, in store order. */
    function GetTransactionsByMerchant(name: string): (r: seq<Transaction>)
      reads this
      ensures forall t :: t in r <==> t in transactions && t.merchantName == name
      ensures SelectsExactly(r, transactions, HasMerchant(name))
    {
      FilterSelectsExactly(transactions, HasMerchant(name));
      Filter(transactions, HasMerchant(name))
    }

    /** The mean amount, 0 for an empty store. */
    function CalculateAverageTransactionAmount(): (r: real)
      reads this
      ensures |transactions| == 0 ==> r == 0.0
      ensures |transactions| > 0 ==> r * (|transactions| as real) == CalculateTotalAmount()
    {
      if |transactions| == 0 then 0.0
      else CalculateTotalAmount() / (|transactions| as real)
    }

    /** The records whose amount lies between `lo` and `hi`, both included. */
    function GetTransactionsByAmountRange(lo: real, hi: real): (r: seq<Transaction>)
      reads this
      ensures forall t :: t in r <==> t in transactions && lo <= t.amount <= hi
      ensures SelectsExactly(r, transactions, AmountBetween(lo, hi))
      ensures hi < lo ==> r == []
    {
      FilterSelectsExactly(transactions, AmountBetween(lo, hi));
      var r := Filter(transactions, AmountBetween(lo, hi));
      assert r != [] ==> lo <= hi by {
        if r != [] {
          assert r[0] in r;
        }
      }
      r
    }

    /** The sum of the amounts of the debit records. */
    function CalculateTotalDebitAmount(): (r: real)
      reads this
      ensures r == Total(GetTransactionsByType("debit"))
      ensures AllTypesKnown(transactions) ==> r + Total(ByType(transactions, "credit")) == CalculateTotalAmount()
      ensures (forall i :: 0 <= i < |transactions| ==> transactions[i].amount >= 0.0) ==>
                0.0 <= r <= CalculateTotalAmount()
    {
      var r := Total(ByType(transactions, "debit"));
      assert (forall i :: 0 <= i < |transactions| ==> transactions[i].amount >= 0.0) ==>
               0.0 <= r <= Total(transactions) by {
        if forall i :: 0 <= i < |transactions| ==> transactions[i].amount >= 0.0 {
          SumOfFilterAtMost(transactions, HasType("debit"), Amount);
        }
      }
      r
    }

    /** The month with the most records; ties go to the lowest month, and an
        empty store yields 1. */
    method FindMostTransactionsMonth() returns (month: int)
      ensures IsBusiestMonth(transactions, month)
      ensures transactions == [] ==> month == 1
      ensures transactions != [] ==> MonthCount(transactions, month) >= 1
    {
      // monthCounts: only months that occur get a key
      var counts: map<int, nat> := map[];
      var i := 0;
      while i < |transactions|
        invariant 0 <= i <= |transactions|
        invariant forall k :: 1 <= k <= 12 ==>
                    (if k in counts then counts[k] else 0) == MonthCount(transactions[..i], k)
      {
        var m := transactions[i].date.month;
        counts := counts[m := (if m in counts then counts[m] else 0) + 1];
        assert transactions[..i + 1][..i] == transactions[..i];
        i := i + 1;
      }
      assert transactions[..i] == transactions;

      // the entries, in ascending key order, with a strict comparison
      var maxMonth, maxCount := 1, 0;
      var m := 1;
      while m <= 12
        invariant 1 <= m <= 13
        invariant 1 <= maxMonth <= 12
        invariant forall k :: 1 <= k < m ==> MonthCount(transactions, k) <= maxCount
        invariant maxCount > 0 ==> maxMonth < m && MonthCount(transactions, maxMonth) == maxCount
        invariant maxCount == 0 ==> maxMonth == 1
        invariant forall k :: 1 <= k < maxMonth ==> MonthCount(transactions, k) < maxCount
      {
        if m in counts && counts[m] > maxCount {
          maxCount := counts[m];
          maxMonth := m;
        }
        m := m + 1;
      }
      month := maxMonth;
      if transactions != [] {
        MonthCountOfMember(transactions, 0);
      }
    }

    /** The busiest month of the debit records alone. */
    method FindMostDebitTransactionMonth() returns (month: int)
      ensures IsBusiestMonth(GetTransactionsByType("debit"), month)
    {
      var debits := GetTransactionsByType("debit");
      var analyzer := new TransactionAnalyzer(debits);
      month := analyzer.FindMostTransactionsMonth();
    }

    /** "debit" or "credit" for the type with strictly more records, "equal" on a tie. */
    function MostTransactionTypes(): (r: string)
      reads this
      ensures r == "debit" <==> |GetTransactionsByType("debit")| > |GetTransactionsByType("credit")|
      ensures r == "credit" <==> |GetTransactionsByType("credit")| > |GetTransactionsByType("debit")|
      ensures r == "equal" <==> |GetTransactionsByType("debit")| == |GetTransactionsByType("credit")|
    {
      var debitCount := |ByType(transactions, "debit")|;
      var creditCount := |ByType(transactions, "credit")|;
      if debitCount > creditCount then "debit"
      else if creditCount > debitCount then "credit"
      else "equal"
    }

    /** The records dated strictly before `cutoff`, in store order. */
    function GetTransactionsBeforeDate(cutoff: Date): (r: seq<Transaction>)
      reads this
      ensures forall t :: t in r <==> t in transactions && DateLt(t.date, cutoff)
      ensures SelectsExactly(r, transactions, DatedBefore(cutoff))
    {
      FilterSelectsExactly(transactions, DatedBefore(cutoff));
      Filter(transactions, DatedBefore(cutoff))
    }

    /** The first record with the given id, or None. */
    function FindTransactionById(id: string): (r: Option<Transaction>)
      reads this
      ensures r.None? <==> forall t :: t in transactions ==> t.id != id
      ensures r.Some? ==> exists i :: 0 <= i < |transactions| && transactions[i] == r.value &&
                                      r.value.id == id &&
                                      forall j :: 0 <= j < i ==> transactions[j].id != id
    {
      Find(transactions, HasId(id))
    }

    /** The descriptions, one per record, in store order. */
    function MapTransactionDescriptions(): (r: seq<string>)
      reads this
      ensures |r| == |transactions|
      ensures forall i :: 0 <= i < |r| ==> r[i] == transactions[i].description
    {
      MapSeq(transactions, Description)
    }

    /** The validator run before every append: the first absent key, then
        the type, then the amount. */
    method ValidateTransaction(c: Candidate) returns (err: Option<ValidationError>)
      ensures err.None? <==> IsValid(c)
      ensures err.Some? ==> Rejects(c, err.value)
    {
      var i := 0;
      while i < |RequiredFields|
        invariant 0 <= i <= |RequiredFields|
        invariant forall j :: 0 <= j < i ==> Has(c, RequiredFields[j])
      {
        if !Has(c, RequiredFields[i]) {
          return Some(MissingField(RequiredFields[i]));
        }
        i := i + 1;
      }
      assert Has(c, RequiredFields[0]) && Has(c, RequiredFields[1]) && Has(c, RequiredFields[2]) &&
             Has(c, RequiredFields[3]) && Has(c, RequiredFields[4]) && Has(c, RequiredFields[5]) &&
             Has(c, RequiredFields[6]);
      if !TypeAccepted(c) {
        return Some(InvalidType);
      }
      if !AmountAccepted(c) {
        return Some(InvalidAmount);
      }
      return None;
    }

    /** Validates `c` and appends it; a rejected candidate leaves the store as it was. */
    method AddTransaction(c: Candidate) returns (err: Option<ValidationError>)
      modifies this
      ensures err.None? <==> IsValid(c)
      ensures err.Some? ==> Rejects(c, err.value) && transactions == old(transactions)
      ensures err.None? ==> transactions == old(transactions) + [ToTransaction(c)]
    {
      err := ValidateTransaction(c);
      if err.None? {
        transactions := transactions + [ToTransaction(c)];
      }
    }

    /** A copy of the whole store, in insertion order. */
    function GetAllTransactions(): (r: seq<Transaction>)
      reads this
      ensures r == transactions
    {
      transactions
    }
  }
}

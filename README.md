# Transaction analyzer and ledger: a verified Dafny model

This project models two pieces of a set of JavaScript lab exercises.

- **The transaction store and query engine** (`lab1/files/TransactionAnalyzer.js`) is modelled in module `TransactionAnalysis`.
  - A `TransactionAnalyzer` owns an ordered sequence of transaction records, held in the field `transactions`.
  - It answers read-only queries over that sequence: filters, totals, the average, the distinct types, the busiest month, the dominant type and lookup by id.
  - It appends a record only after a validator accepts it.
- **The in-page ledger** (`lab3/files/script.js`) is modelled in module `LedgerScript`. It covers the description shortening and the list operations behind the form, the delete button, the balance display and the details modal.

Shared module `Seqs` gives the JavaScript array idioms the source uses, each with its defining properties:
- `filter`;
- `reduce` (sum);
- `find`;
- `map`;
- `[...new Set(...)]` (distinct values).

Module `AnalyzerScenarios` checks the documented behaviour on concrete stores.

Modelling choices:
- Dates are already-parsed `(year, month, day)` triples, with the month restricted to 1..12. They are compared lexicographically, as JavaScript compares the timestamps of date-only values.
- Amounts are exact `real` numbers.
- The argument of `addTransaction` is a `Candidate`. Each of its seven keys is present (`Some`) or absent (`None`). The amount is either a `Number` or a `NonNumber`, so that the `typeof` check can be expressed.
- `addTransaction` throws in the source. Here it returns `Some(error)` and leaves the store unchanged.
- The optional `year`, `month` and `day` of `calculateTotalAmountByDate` are `Option<int>`. A criterion restricts only when it is truthy, meaning present and non-zero.
- `findMostTransactionsMonth` iterates `Object.entries` of the month counts. Keys that look like integers iterate in ascending numeric order, and the scan replaces the best month only on a strict `>`. The model therefore scans months 1..12 in ascending order, skipping months with no key, so ties go to the lowest month.
  - Ties do not go to the month that appears first in the store. The code orders by month number, and the model follows the code.
- In the ledger, the page state that the list operations write is kept as fields of class `Ledger`: the balance text and class, and the entry shown in the modal. The clock-and-random id, `new Date()` and the parsed amount field become parameters of `AddTransaction`.

## Model

| member | source | states |
|---|---|---|
| `Seqs.Filter` | lab1/files/TransactionAnalyzer.js:63-65 | the result holds exactly the elements that satisfy the predicate, and is no longer than the input |
| `Seqs.FilterIsSubsequence` | lab1/files/TransactionAnalyzer.js:63-65 | a filter keeps the store order of the records it keeps |
| `Seqs.FilterCount` | lab1/files/TransactionAnalyzer.js:63-65 | a filter keeps every occurrence of a qualifying record and none of the others |
| `Seqs.FilterSelectsExactly` | lab1/files/TransactionAnalyzer.js:63-65 | membership, multiplicity and order together: the filter selects exactly the qualifying records |
| `Seqs.FilterAppend` | lab1/files/TransactionAnalyzer.js:63-65 | filtering distributes over concatenation |
| `Seqs.FilterAgree` | lab1/files/TransactionAnalyzer.js:63-65 | two predicates that agree on every element filter identically |
| `Seqs.FilterKeepsAll` | lab1/files/TransactionAnalyzer.js:47-53 | a filter that every element passes returns the whole sequence |
| `Seqs.FilterPartitionLength` | lab1/files/TransactionAnalyzer.js:161-162 | the elements that pass and the elements that fail add up to the whole count |
| `Seqs.SumOf` | lab1/files/TransactionAnalyzer.js:33-35 | the left-fold sum starting from 0 is non-negative when every term is |
| `Seqs.SumOfAppend` | lab1/files/TransactionAnalyzer.js:33-35 | the sum of a concatenation is the sum of the sums |
| `Seqs.SumOfPartition` | lab1/files/TransactionAnalyzer.js:119-122 | the whole sum is the sum over the elements that pass a predicate plus the sum over the rest |
| `Seqs.SumOfFilterAtMost` | lab1/files/TransactionAnalyzer.js:46-55 | with non-negative terms, the sum over a filter lies between 0 and the whole sum |
| `Seqs.FindIndex` | lab1/files/TransactionAnalyzer.js:186-188 | the result is the first position that satisfies the predicate, or None when no position does |
| `Seqs.Find` | lab1/files/TransactionAnalyzer.js:186-188 | the result is None iff no element qualifies; otherwise it is the element at the first qualifying position |
| `Seqs.MapSeq` | lab1/files/TransactionAnalyzer.js:195-197 | the result has the same length, and each position holds the image of the input at that position |
| `Seqs.FirstIndex` | lab1/files/TransactionAnalyzer.js:23-25 | the position of the first occurrence of a value |
| `Seqs.Distinct` | lab1/files/TransactionAnalyzer.js:23-25 | the result has the same values as the input, with no repetition |
| `Seqs.FirstIndexOfPrefix` | lab1/files/TransactionAnalyzer.js:23-25 | appending an element does not move the first occurrence of a value already present |
| `Seqs.DistinctFirstSeenOrder` | lab1/files/TransactionAnalyzer.js:23-25 | the distinct values are listed in the order of their first occurrence |
| `TransactionAnalysis.DateLeTransitive` | lab1/files/TransactionAnalyzer.js:75-82 | the date order is transitive |
| `TransactionAnalysis.NonDebitsAreCredits` | lab1/files/TransactionAnalyzer.js:234-236 | when every record is a debit or a credit, the records that are not debits are exactly the credits |
| `TransactionAnalysis.TotalIsDebitPlusCredit` | lab1/files/TransactionAnalyzer.js:119-122 | the debit total plus the credit total equals the grand total, when every type is debit or credit |
| `TransactionAnalysis.DebitAndCreditCountsCoverStore` | lab1/files/TransactionAnalyzer.js:160-167 | the debit count plus the credit count equals the store size, when every type is debit or credit |
| `TransactionAnalysis.TotalAfterAppend` | lab1/files/TransactionAnalyzer.js:212-215 | appending a record raises the total by exactly its amount |
| `TransactionAnalysis.UnrestrictedPeriodIsTotal` | lab1/files/TransactionAnalyzer.js:46-55 | with no truthy year, month or day, the period total is the grand total |
| `TransactionAnalysis.PeriodCriteriaConjoin` | lab1/files/TransactionAnalyzer.js:50-52 | the criteria combine with AND: filtering by the year, then by the month and day, equals filtering by all three |
| `TransactionAnalysis.InPeriod` | lab1/files/TransactionAnalyzer.js:48-53 | with no truthy criterion every record is in the period; a truthy month outside 1..12 admits no record; two records with the same date are either both in the period or both out |
| `TransactionAnalysis.PeriodCriterionRestricts` | lab1/files/TransactionAnalyzer.js:50-52 | a truthy year, month or day keeps exactly the records whose date part equals it, on top of the other two criteria; a falsy one (absent or 0) leaves the other two to decide |
| `TransactionAnalysis.MonthCount` | lab1/files/TransactionAnalyzer.js:129-133 | the count a month accumulates never exceeds the number of records |
| `TransactionAnalysis.MonthCountIsFilterLength` | lab1/files/TransactionAnalyzer.js:129-133 | the count a month accumulates equals the number of records a filter on that month keeps |
| `TransactionAnalysis.MonthCountOfMember` | lab1/files/TransactionAnalyzer.js:130-133 | the month of every stored record has a count of at least 1 |
| `TransactionAnalysis.BusiestMonthIsUnique` | lab1/files/TransactionAnalyzer.js:137-142 | the busiest-month specification (maximal count, lowest among ties) determines one month |
| `TransactionAnalysis.BusiestMonthIsOccupied` | lab1/files/TransactionAnalyzer.js:135-143 | the busiest month of a non-empty store holds at least one record |
| `TransactionAnalysis.BusiestMonthOfEmptyStore` | lab1/files/TransactionAnalyzer.js:135-136 | for an empty store the busiest month is 1 |
| `TransactionAnalysis.MissingFieldMeansIncomplete` | lab1/files/TransactionAnalyzer.js:228-232 | a missing-field rejection implies that some required key is absent |
| `TransactionAnalysis.RejectionIsDetermined` | lab1/files/TransactionAnalyzer.js:217-241 | a rejected candidate is invalid, and at most one error describes its first failing check |
| `TransactionAnalysis.TransactionAnalyzer.constructor` | lab1/files/TransactionAnalyzer.js:14-16 | the store starts as the given sequence |
| `TransactionAnalysis.TransactionAnalyzer.GetUniqueTransactionTypes` | lab1/files/TransactionAnalyzer.js:23-25 | every type that occurs is listed, nothing else is listed, there are no duplicates, and the types appear in order of first occurrence |
| `TransactionAnalysis.TransactionAnalyzer.CalculateTotalAmount` | lab1/files/TransactionAnalyzer.js:33-35 | the sum of all amounts in the store, whatever their types (`Total`, characterised by `SumOfAppend`, `TotalAfterAppend` and `TotalIsDebitPlusCredit`); 0 for an empty store; non-negative when every amount is; the debit total plus the credit total when every type is debit or credit |
| `TransactionAnalysis.TransactionAnalyzer.CalculateTotalAmountByDate` | lab1/files/TransactionAnalyzer.js:46-55 | the total over the records in the period; equals the grand total when no criterion is truthy; between 0 and the grand total when no amount is negative |
| `TransactionAnalysis.TransactionAnalyzer.GetTransactionsByType` | lab1/files/TransactionAnalyzer.js:63-65 | exactly the records of the given type, with their multiplicity, in store order |
| `TransactionAnalysis.TransactionAnalyzer.GetTransactionsInDateRange` | lab1/files/TransactionAnalyzer.js:75-82 | exactly the records with start <= date <= end, in store order; empty when start > end |
| `TransactionAnalysis.TransactionAnalyzer.GetTransactionsByMerchant` | lab1/files/TransactionAnalyzer.js:85-87 | exactly the records of the given merchant, in store order |
| `TransactionAnalysis.TransactionAnalyzer.CalculateAverageTransactionAmount` | lab1/files/TransactionAnalyzer.js:94-98 | 0 for an empty store; otherwise the average times the count equals the total |
| `TransactionAnalysis.TransactionAnalyzer.GetTransactionsByAmountRange` | lab1/files/TransactionAnalyzer.js:107-112 | exactly the records with lo <= amount <= hi (both ends included), in store order; empty when lo > hi |
| `TransactionAnalysis.TransactionAnalyzer.CalculateTotalDebitAmount` | lab1/files/TransactionAnalyzer.js:119-122 | the total of the debit records; adding the credit total gives the grand total when every type is debit or credit; between 0 and the grand total when no amount is negative |
| `TransactionAnalysis.TransactionAnalyzer.FindMostTransactionsMonth` | lab1/files/TransactionAnalyzer.js:128-144 | the result is a month with maximal count and the lowest such month; 1 for an empty store; otherwise a month that holds a record |
| `TransactionAnalysis.TransactionAnalyzer.FindMostDebitTransactionMonth` | lab1/files/TransactionAnalyzer.js:150-154 | the busiest month, in the same sense, of the debit records alone |
| `TransactionAnalysis.TransactionAnalyzer.MostTransactionTypes` | lab1/files/TransactionAnalyzer.js:160-167 | "debit" iff there are more debits than credits; "credit" iff there are more credits than debits; "equal" iff the counts are equal |
| `TransactionAnalysis.TransactionAnalyzer.GetTransactionsBeforeDate` | lab1/files/TransactionAnalyzer.js:174-179 | exactly the records dated strictly before the cutoff, in store order |
| `TransactionAnalysis.TransactionAnalyzer.FindTransactionById` | lab1/files/TransactionAnalyzer.js:186-188 | None iff no record has the id; otherwise the first record in store order with that id |
| `TransactionAnalysis.TransactionAnalyzer.MapTransactionDescriptions` | lab1/files/TransactionAnalyzer.js:195-197 | one description per record, in store order |
| `TransactionAnalysis.TransactionAnalyzer.ValidateTransaction` | lab1/files/TransactionAnalyzer.js:217-241 | no error iff every key is present, the type is debit or credit, and the amount is a non-negative number; any error is the first failing check (first absent key in the listed order, then the type, then the amount) |
| `TransactionAnalysis.TransactionAnalyzer.AddTransaction` | lab1/files/TransactionAnalyzer.js:212-215 | on success the store is the old store with the new record appended; on failure the store is unchanged and the error is the first failing check |
| `TransactionAnalysis.TransactionAnalyzer.GetAllTransactions` | lab1/files/TransactionAnalyzer.js:248-250 | the returned sequence equals the whole store, in insertion order |
| `AnalyzerScenarios.DominanceIsByCount` | lab1/files/TransactionAnalyzer.js:160-167 | one debit of 100 and one credit of 50: total 150, debit total 100, dominant type "equal" |
| `AnalyzerScenarios.DateRangeKeepsJanuary` | lab1/files/TransactionAnalyzer.js:75-82 | a January range keeps the 15 January record and drops the 1 February one |
| `AnalyzerScenarios.DuplicateIdFindsFirst` | lab1/files/TransactionAnalyzer.js:186-188 | of two records with id "1", the first is found |
| `AnalyzerScenarios.MonthTieGoesToLowerMonth` | lab1/files/TransactionAnalyzer.js:137-142 | a one-to-one tie between January and February goes to January |
| `LedgerScript.Split` | lab3/files/script.js:44 | the number of pieces is the number of spaces plus one, and no piece contains a space |
| `LedgerScript.Join` | lab3/files/script.js:45 | the first piece starts the result; space-free pieces are joined with exactly one space fewer than there are pieces |
| `LedgerScript.JoinSplit` | lab3/files/script.js:44-45 | joining the pieces of a split with single spaces gives back the text |
| `LedgerScript.SplitAtSpace` | lab3/files/script.js:44 | splitting `x + " " + y` gives the pieces of `x` followed by the pieces of `y` |
| `LedgerScript.SplitWithoutSpace` | lab3/files/script.js:44 | a text without spaces splits into itself alone |
| `LedgerScript.SplitJoin` | lab3/files/script.js:44-45 | splitting a join of space-free pieces gives back the pieces |
| `LedgerScript.JoinAppend` | lab3/files/script.js:45 | joining two non-empty runs of pieces puts exactly one space between them |
| `LedgerScript.TruncateDescription` | lab3/files/script.js:43-46 | with at most 4 pieces the description is returned unchanged; with more, the result is a prefix of the description that ends just before its 4th space, splits into the first 4 pieces, and is followed by "..." |
| `LedgerScript.Balance` | lab3/files/script.js:96 | 0 for an empty list; non-negative when no amount is negative |
| `LedgerScript.BalanceClass` | lab3/files/script.js:98 | "balance positive" exactly when the total is at least 0, "balance negative" exactly when it is below 0 |
| `LedgerScript.WithoutId` | lab3/files/script.js:106 | the entries kept are exactly those whose id differs; the list shrinks by exactly the number of entries with the id |
| `LedgerScript.DeleteKeepsOthers` | lab3/files/script.js:106 | after a delete, no entry has the id, and every other entry is kept with its multiplicity and in its order |
| `LedgerScript.DeleteAbsentIdChangesNothing` | lab3/files/script.js:106 | deleting an id that no entry has leaves the list unchanged |
| `LedgerScript.BalanceAfterDelete` | lab3/files/script.js:105-109 | a delete lowers the balance by exactly the amounts of the deleted entries |
| `LedgerScript.BalanceAfterAdd` | lab3/files/script.js:63-65 | an add raises the balance by exactly the new amount |
| `LedgerScript.Ledger.constructor` | lab3/files/script.js:11 | the list starts empty, and no details are shown |
| `LedgerScript.Ledger.CalculateTotal` | lab3/files/script.js:95-99 | the balance text is the sum of all amounts; its class is "balance positive" when the sum is >= 0 and "balance negative" otherwise |
| `LedgerScript.Ledger.AddTransaction` | lab3/files/script.js:52-67 | exactly one entry is appended and earlier entries are unchanged; the balance display is recomputed and grows by the new amount |
| `LedgerScript.Ledger.DeleteTransaction` | lab3/files/script.js:105-109 | the list becomes the old list without the entries that have the id; the balance display is recomputed |
| `LedgerScript.Ledger.ShowTransactionDetails` | lab3/files/script.js:115-131 | nothing changes when no entry has the id; otherwise the modal shows the first entry with that id |

## Left out

- Date parsing is not modelled. `new Date(text)` parses date-only text as UTC, but `getFullYear`, `getMonth` and `getDate` read local components, so the host time zone can shift a date by a day. Dates are modelled as already-parsed triples. Text that does not parse (an `Invalid Date`, whose comparisons are all false and whose month is `NaN`) is not modelled either.
- IEEE-754 arithmetic is not modelled: rounding in sums and averages, and `parseFloat`. A `NaN` amount, which passes the `typeof`/`< 0` check, is not modelled either. Amounts are exact reals.
- TransactionAnalysis.TransactionAnalyzer.constructor: the source keeps a reference to the caller's array, so the caller can later change the store through that reference. The model's store owns its sequence. The source's default argument `[]` is the call with an empty sequence.
- TransactionAnalysis.TransactionAnalyzer.AddTransaction: the source pushes the candidate object itself, with any extra keys and with non-string values in the text keys. The model stores a `Transaction` built from the seven keys. A key that is present with value `undefined` is modelled as present only for the amount (`NonNumber`) and the type (a value other than debit/credit).
- TransactionAnalysis.TransactionAnalyzer.CalculateTotalAmountByDate: arguments of other JavaScript types (strings, `NaN`, `null`) are not modelled. A criterion is an optional integer, and "falsy" means absent or 0.
- The interactive menu, the JSON file loader and the entry-point wiring of lab1 are input/output glue and are not part of this model. So is the activity widget of lab2 (network `fetch`, `Math.random`, timers).
- Page rendering in lab3 is not modelled: `addTransactionToTable`, `formatDate` (locale formatting), the event listeners and the closing of the modal. `generateId` (clock and randomness) becomes the `id` parameter of `AddTransaction`, and `new Date()` becomes its `now` parameter.
- LedgerScript.Ledger.DeleteTransaction: the source removes the table row after filtering, and throws if no row carries the id. That error path lies in the page and is not modelled.
- LedgerScript.Ledger.constructor: the page's initial balance markup is not part of this model. The constructor starts the display at the balance of the empty list.

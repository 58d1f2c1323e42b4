# Bank account kata: a verified model of the account core

This project models the core of a small Java bank-account application.
That core has three parts:

- **The account** (`kata.model.Account`). It holds a balance and an append-only history of
  transactions. Three mutators change them: deposit, withdrawal and full withdrawal. Each
  mutator either rejects the request or records one new transaction, stamped with the balance
  after it. An account can also be seeded by replaying a list of pre-transactions through the
  same mutators. Report queries ask for the history filtered by an optional date range and an
  optional kind, together with totals.
- **The selector** (`societegeneralekata.utils.Filter`). It filters a history, in order, by an
  inclusive time range (applied only when both bounds are given) and by kind. A withdrawal
  request also takes full withdrawals.
- **The summarizer** (`kata.utils.Calculator`). It chooses which totals a report shows
  (deposits, withdrawals, balance) from the kind the report was filtered on, and adds them up.

Encodings:

- Money is an exact `int` in a fixed unit (whole currency units in `Seeds`). Amounts with more
  fraction digits than that unit cannot be expressed.
- A calendar date is its number of days since 1970-01-01.
- An instant is whole minutes since 1970-01-01 00:00, so `plusDays(1)` is `+ 1` and
  `LocalTime.of(0, 0)` is `StartOfDay`.

Module layout, following the program:

| file | module | models |
|---|---|---|
| `wrappers.dfy` | `Wrappers` | `Option`, for Java's `null` bounds, kinds and totals |
| `sequences.dfy` | `Sequences` | two facts about concatenation, shared by the proofs |
| `model.dfy` | `Model` | transaction kinds, `Transaction`, `PreTransaction`, `SumsOfTransactions`, and the date and time encoding |
| `filter.dfy` | `Filter` | the selector, plus a one-pass reference selection it is proved equal to |
| `calculator.dfy` | `Calculator` | the summarizer |
| `ledger.dfy` | `Ledger` | the account operations as functions on the state (history and balance), and the account invariant |
| `account.dfy` | `Accounts` | the `Account` class, whose fields are updated in place; each method is proved to agree with its `Ledger` function and to keep the invariant |
| `seeds.dfy` | `Seeds` | the seed data of the unit tests, and what the model computes from it |
| `decimals.dfy` | `Decimals` | `BigDecimal`'s `equals` versus `compareTo` in the zero guards (see Findings) |

The account invariant `Ledger.Consistent` has two parts:

- The balance is the one stamped on the latest entry.
- Every entry is valid on top of the entry before it:
  - its amount is positive;
  - its stamped balance is its effect on the previous balance;
  - a withdrawal takes no more than that balance;
  - a full withdrawal takes exactly that balance.

From the invariant follow:

- the balance is never negative;
- the balance equals the one recomputed from the history alone (the unit tests' `calculateBalance`);
- the balance equals the deposit total minus the total of all withdrawals.

The reported end of a dated range is the day after the end date at 00:00, and the range
check is inclusive at both ends. So a report also shows an entry stamped exactly at midnight
after the end date. `Accounts.DateRangeCoversDays` states this precisely. The model keeps the
code's behaviour.

## Model

| member | source | states |
|---|---|---|
| Ledger.MakeDeposit | src/main/java/kata/model/Account.java:56-63 | A non-positive amount is rejected and changes nothing. Otherwise the balance grows by the amount and one deposit is appended, stamped with the new balance. A rejection is exactly the case where the state is unchanged. |
| Ledger.Magnitude | src/main/java/kata/model/Account.java:75-78 | The amount a withdrawal works with is non-negative and is the amount or its negation. |
| Ledger.MakeWithdrawal | src/main/java/kata/model/Account.java:69-89 | Zero is rejected. A negative amount is taken by its magnitude. A magnitude above the balance is rejected as insufficient funds, reporting the magnitude. Otherwise the balance drops by the magnitude and one withdrawal is appended, stamped with the new balance. |
| Ledger.WithdrawAllFunds | src/main/java/kata/model/Account.java:95-104 | A zero balance is refused. Otherwise the whole balance is recorded as a full withdrawal, described "Full withdrawal of funds", and the balance becomes 0. |
| Ledger.RegisterTransaction | src/main/java/kata/model/Account.java:106-126 | The shared append step; no contract of its own. `Accounts.Account.RegisterTransaction` states it (one entry appended, stamped with the balance) and the `*KeepsConsistent` lemmas show it keeps the invariant. |
| Ledger.Perform | src/main/java/kata/model/Account.java:35-48 | The dispatch of one seed; no contract of its own. `Ledger.PerformKeepsConsistent` and `Accounts.Account.Perform` state it: the mutator the seed's kind names, and the invariant kept. |
| Ledger.PerformPreTransactions | src/main/java/kata/model/Account.java:33-50 | The seed replay; no contract of its own. `Ledger.PerformPreTransactionsAppend`, `Ledger.PerformPreTransactionsSnoc`, `Ledger.PerformPreTransactionsExtendsHistory` and `Ledger.PerformPreTransactionsKeepsConsistent` state what it computes. |
| Ledger.PerformPreTransactionsAppend | src/main/java/kata/model/Account.java:33-50 | Replaying two seed lists one after the other is the same as replaying their concatenation. |
| Ledger.PerformPreTransactionsSnoc | src/main/java/kata/model/Account.java:33-50 | Replaying one more seed is one more dispatch step on the replayed state. |
| Ledger.PerformPreTransactionsExtendsHistory | src/main/java/kata/model/Account.java:33-50 | Replaying seeds only appends, at most one entry per seed, and leaves the earlier history as it was. |
| Ledger.RecordedNonNegative | src/main/java/kata/model/Account.java:79-85 | On a valid history the stamped balance is never negative. |
| Ledger.RecordedReplay | src/test/java/TestUtils.java:11-21 | On a valid history the stamped balance equals the balance recomputed from the entries alone: add deposits, subtract withdrawals, reset on a full withdrawal. |
| Ledger.RecordedAmountsPositive | src/main/java/kata/model/Account.java:57-78 | Every recorded amount is strictly positive: the sign is carried by the kind. |
| Ledger.RecordedTotals | src/main/java/kata/model/Account.java:61-102 | On a valid history the balance is the deposit total minus the total of plain and full withdrawals. |
| Ledger.ConsistentBalance | src/test/java/AccountTest.java:30-38 | Under the invariant the balance is non-negative, equals the recomputed balance and equals the deposit total minus the withdrawal total. |
| Ledger.RecordedSnoc | src/main/java/kata/model/Account.java:106-109 | Appending a valid entry keeps the history valid and makes its stamped balance the latest one. |
| Ledger.EmptyConsistent | src/main/java/kata/model/Account.java:18-25 | The empty account satisfies the invariant. |
| Ledger.MakeDepositKeepsConsistent | src/main/java/kata/model/Account.java:56-63 | A deposit, accepted or rejected, keeps the invariant. |
| Ledger.MakeWithdrawalKeepsConsistent | src/main/java/kata/model/Account.java:69-89 | A withdrawal, accepted or rejected, keeps the invariant. |
| Ledger.WithdrawAllFundsKeepsConsistent | src/main/java/kata/model/Account.java:95-104 | A full withdrawal, accepted or refused, keeps the invariant. |
| Ledger.PerformKeepsConsistent | src/main/java/kata/model/Account.java:34-48 | Dispatching one seed to the mutator its kind names keeps the invariant. |
| Ledger.PerformPreTransactionsKeepsConsistent | src/main/java/kata/model/Account.java:28-31 | Seeded construction keeps the invariant, whatever the seeds. |
| Accounts.Account.constructor | src/main/java/kata/model/Account.java:22-25 | The new account has no history, a zero balance and satisfies the invariant. |
| Accounts.Account.Seeded | src/main/java/kata/model/Account.java:27-31 | The seeded account's state is the replay of the seeds from the empty account, and the invariant holds. |
| Accounts.Account.PerformPreTransactions | src/main/java/kata/model/Account.java:33-50 | The loop leaves the state the seed replay computes. It keeps the invariant and returns one outcome per seed, each the outcome of that seed on the state before it. |
| Accounts.Account.Perform | src/main/java/kata/model/Account.java:35-48 | One seed goes to its mutator: the new state and the outcome are those of `Ledger.Perform`. |
| Accounts.Account.MakeDeposit | src/main/java/kata/model/Account.java:56-63 | In place: a rejection leaves the object unchanged. Otherwise the balance grows by the amount and the deposit entry is appended. The step agrees with `Ledger.MakeDeposit` and the invariant is kept. |
| Accounts.Account.MakeWithdrawal | src/main/java/kata/model/Account.java:69-89 | In place: zero and overdrafts leave the object unchanged. Otherwise the balance drops by the magnitude and the withdrawal entry is appended. The step agrees with `Ledger.MakeWithdrawal` and the invariant is kept. |
| Accounts.Account.WithdrawAllFunds | src/main/java/kata/model/Account.java:95-104 | In place: a zero balance leaves the object unchanged. Otherwise the old balance is recorded as a full withdrawal and the balance becomes 0. The step agrees with `Ledger.WithdrawAllFunds`. |
| Accounts.Account.RegisterTransaction | src/main/java/kata/model/Account.java:106-126 | Appends one entry stamped with the current balance, leaves the balance alone and reports the success message for the kind. |
| Accounts.DateRange | src/main/java/kata/model/Account.java:138-144 | Both bounds exist exactly when both dates are given. The start is 00:00 of the start date; the end is 00:00 of the day after the end date. |
| Accounts.DateRangeCoversDays | src/main/java/societegeneralekata/utils/Filter.java:43-46 | With both dates given, an entry is in the range exactly when its day is from the start date through the end date, or it is stamped 00:00 on the day after the end date. |
| Accounts.Query | src/main/java/kata/model/Account.java:136-162 | The report query; no contract of its own. `Accounts.QueryMembership` states which entries it shows and `Accounts.HistoryReportReconciles` its totals for the full history. |
| Accounts.QueryMembership | src/main/java/kata/model/Account.java:136-162 | A report shows exactly the history entries that satisfy the date condition (when both dates are given) and are in the requested kind's family (when a kind is given). |
| Accounts.HistoryReportReconciles | src/main/java/kata/model/Account.java:128-130 | The full-history report shows the whole history and the balance. Its deposit total minus its withdrawal total is the balance. |
| Accounts.Account.FilteredReport | src/main/java/kata/model/Account.java:136-162 | The report built from the fields is `Query` of the account state: the range, the filtered entries, their sums and the bounds used. |
| Accounts.Account.HistoryReport | src/main/java/kata/model/Account.java:128-130 | All entries, no bounds, both type totals and the balance, with deposits minus withdrawals equal to the balance. |
| Accounts.Account.DepositsReport | src/main/java/kata/model/Account.java:132-134 | Only deposits of the account, with the deposit total of the shown entries and no balance. |
| Accounts.Account.WithdrawalsReport | src/main/java/kata/model/Account.java:164-166 | Only plain and full withdrawals of the account, with their total and no balance. |
| Accounts.Account.RangeReport | src/main/java/kata/model/Account.java:168-170 | The dated report with both bounds set as `DateRange` gives them, and the balance shown. |
| Accounts.Account.RangeAndTypeReport | src/main/java/kata/model/Account.java:172-174 | The report for the given dates and kind. |
| Accounts.Account.GetBalance | src/main/java/kata/model/Account.java:181-183 | The balance is non-negative and equals the balance recomputed from the history. |
| Accounts.Account.GetTransactionsDeepCopy | src/main/java/kata/model/Account.java:176-179 | The copy equals the history, is a valid history and its latest stamped balance is the balance. |
| Filter.FilterByTimeRangeAndType | src/main/java/societegeneralekata/utils/Filter.java:10-33 | The selector itself; it has no contract of its own. Its meaning is given by `Filter.FilterIsSelection` (it equals the one-pass reference selection) and `Filter.FilterMembership` (an entry is kept exactly when it is in the input and matches every supplied criterion). |
| Filter.FilterByTimeRange | src/main/java/societegeneralekata/utils/Filter.java:16-21 | The range stage; no contract of its own. `Filter.FilterByTimeRangeAppend` and `Filter.RangeThenTypeIsSelection` state what it keeps: the entries within the inclusive bounds, in order. |
| Filter.FilterByType | src/main/java/societegeneralekata/utils/Filter.java:26-30 | The kind stage; no contract of its own. `Filter.FilterByTypeIsSelection`, `Filter.FilterByTypeAppend` and `Filter.FilterByTypeIdempotent` state what it keeps: the entries in the kind's family, in order. |
| Filter.IsOfType | src/main/java/societegeneralekata/utils/Filter.java:35-41 | The kind test; no contract of its own. `Filter.IsOfTypeFamily` states it against the independent `InFamily`. |
| Filter.InTimeRange | src/main/java/societegeneralekata/utils/Filter.java:43-46 | The inclusive range test; no contract of its own. `Accounts.DateRangeCoversDays` states what it means for the dates a report is given. |
| Filter.FilterIsSelection | src/main/java/societegeneralekata/utils/Filter.java:10-33 | For every combination of bounds and kind, the two-stage filter equals the one-pass reference selection of the entries matching every supplied criterion. |
| Filter.FilterByTypeIsSelection | src/main/java/societegeneralekata/utils/Filter.java:26-30 | Filtering by kind alone is the reference selection without a range. |
| Filter.RangeThenTypeIsSelection | src/main/java/societegeneralekata/utils/Filter.java:16-30 | Filtering by range and then by kind is the reference selection with both criteria. |
| Filter.UnfilteredIsSelection | src/main/java/societegeneralekata/utils/Filter.java:22-24 | Without a full range and without a kind, the input is returned unchanged. |
| Filter.IsOfTypeFamily | src/main/java/societegeneralekata/utils/Filter.java:35-41 | An entry is of a requested kind exactly when its kind is in that kind's family: withdrawal covers both withdrawal kinds, the others only themselves. |
| Filter.FilterByTimeRangeAppend | src/main/java/societegeneralekata/utils/Filter.java:16-21 | The range filter distributes over concatenation. |
| Filter.FilterByTypeAppend | src/main/java/societegeneralekata/utils/Filter.java:26-30 | The kind filter distributes over concatenation. |
| Filter.FilterWithoutCriteria | src/test/java/FilterTest.java:19-33 | With no bounds and no kind the result is the input. |
| Filter.FilterIgnoresLoneBound | src/main/java/societegeneralekata/utils/Filter.java:16-24 | A single bound is ignored: the result is the kind-only result. |
| Filter.FilterSingleton | src/main/java/societegeneralekata/utils/Filter.java:10-33 | One entry is kept exactly when it matches every supplied criterion. |
| Filter.FilterAppend | src/main/java/societegeneralekata/utils/Filter.java:10-33 | Order preservation: filtering a concatenation is concatenating the filtered parts. |
| Filter.FilterMembership | src/main/java/societegeneralekata/utils/Filter.java:10-46 | Soundness and completeness: an entry is in the result exactly when it is in the input and matches every supplied criterion. |
| Filter.FilterIsSubsequence | src/main/java/societegeneralekata/utils/Filter.java:10-33 | The result is the input with some entries dropped, in the input's order. |
| Filter.FilterIdempotent | src/main/java/societegeneralekata/utils/Filter.java:10-33 | Filtering the result again with the same criteria changes nothing. |
| Filter.FilterByTypeIdempotent | src/main/java/societegeneralekata/utils/Filter.java:26-30 | Filtering by a kind twice is filtering once; a consequence of `FilterIdempotent`. |
| Filter.FilterNothingMatches | src/test/java/FilterTest.java:117-133 | When no entry matches, the result is empty. |
| Filter.WithdrawalFamily | src/main/java/societegeneralekata/utils/Filter.java:35-37 | A withdrawal request returns exactly the plain and full withdrawals of the input. |
| Filter.ExactKind | src/main/java/societegeneralekata/utils/Filter.java:38-40 | A deposit or full-withdrawal request returns exactly the entries of that kind. |
| Calculator.CalculateSums | src/main/java/kata/utils/Calculator.java:11-29 | The balance is present exactly when no kind is given. The deposit total is present unless a withdrawal kind is given. The withdrawal total is present unless deposits are requested. |
| Calculator.SumsWithoutKind | src/main/java/kata/utils/Calculator.java:23-26 | Without a kind: the balance, plus the totals of the deposit and the withdrawal-family entries, which together add up to all amounts shown. |
| Calculator.SumsOfDeposits | src/main/java/kata/utils/Calculator.java:19-20 | For a deposit report: only the total of all entries given. |
| Calculator.SumsOfWithdrawals | src/main/java/kata/utils/Calculator.java:21-22 | For a withdrawal or full-withdrawal report: only the total of all entries given. |
| Calculator.SumOfAmounts | src/main/java/kata/utils/Calculator.java:39-43 | The total of all amounts; no contract of its own. `Calculator.SumOfAmountsAppend` states that it is additive over concatenation. |
| Calculator.SumOfTransactionsOfType | src/main/java/kata/utils/Calculator.java:31-37 | The total of one kind's family; no contract of its own. `Calculator.SumOfTypeSnoc` and `Calculator.DepositsAndWithdrawalsSplitTotal` state what it adds up. |
| Calculator.SumOfAmountsAppend | src/main/java/kata/utils/Calculator.java:39-43 | The left-to-right sum from zero is additive over concatenation. |
| Calculator.SumOfTypeSnoc | src/main/java/kata/utils/Calculator.java:31-37 | A type total grows by an appended entry's amount exactly when that entry is of the type. |
| Calculator.DepositsAndWithdrawalsSplitTotal | src/main/java/kata/utils/Calculator.java:24-25 | The deposit total and the withdrawal-family total together are the sum of all amounts. |
| Calculator.SumsOfEmptySelection | src/main/java/kata/utils/Calculator.java:33-42 | An empty selection reports zero for every total it shows. |
| Calculator.FilteredTotalAgreesWithUnfiltered | src/main/java/kata/utils/Calculator.java:19-26 | A deposit (or withdrawal) report over a range shows the same deposit (or withdrawal) total as the unfiltered report over that range. |
| Seeds.GeneralSeedBalances | src/test/java/TestUtils.java:85-118 | The general seeds replayed from an empty account give the six-entry history with balances 11000, 0, 800, 11800, 6800, 9100 and a final balance of 9100. |
| Seeds.SeedDates | src/test/java/TestUtils.java:85-118 | The seed instants and the test range bounds as minutes since the epoch. |
| Seeds.MixedSeedsFirstHalf | src/test/java/TestUtils.java:40-61 | Per-seed outcomes on the general history with balance 9100: the car purchase is `Withdrawn(9100, 0)`, the full withdrawal is `NoFunds`, the laptop purchase is `InsufficientFunds(800)` and the refund is `Deposited(1000, 1000)`. The four seeds leave the general history plus the first two `MixedEntries` and a balance of 1000. |
| Seeds.MixedSeedsSecondHalf | src/test/java/TestUtils.java:62-81 | From any state with balance 1000: the zero withdrawal, the zero deposit and the negative deposit each give `NonPositiveAmount`, and the withdrawal of -100 gives `Withdrawn(100, 900)`. The four seeds append exactly the third `MixedEntries` entry and leave 900. |
| Seeds.MixedSeedsRecordThree | src/test/java/AccountTest.java:114-135 | Replaying the eight valid and invalid seeds on the seeded account gives the general history followed by exactly the three `MixedEntries` (its dates, descriptions, amounts, stamped balances and kinds), and a balance of 900. |
| Seeds.GeneralHistoryInRange | src/test/java/FilterTest.java:35-56 | 2025-01-25 00:00 to 2025-02-19 00:00 keeps exactly the three entries dated in between. |
| Seeds.GeneralHistoryDeposits | src/test/java/FilterTest.java:58-75 | The deposit view of the seeded history is its four deposits, in order. |
| Seeds.GeneralHistoryWithdrawals | src/test/java/FilterTest.java:77-94 | The withdrawal view is the full withdrawal and the plain withdrawal, in order. |
| Seeds.GeneralHistoryRangeAndDeposit | src/test/java/FilterTest.java:96-115 | The range and deposit view is the two deposits inside the range. |
| Seeds.GeneralHistoryRangeAndFullWithdrawal | src/test/java/FilterTest.java:117-133 | No full withdrawal lies inside the range: the view is empty. |
| Decimals.CompareWithZero | src/main/java/kata/model/Account.java:57-96 | `compareTo` against zero is the sign of the unscaled value; `equals` zero also needs scale 0. |
| Decimals.SubtractSelf | src/main/java/kata/model/Account.java:87 | Subtracting an amount from itself gives zero at that amount's scale. |
| Decimals.FullWithdrawalAsWritten | src/main/java/kata/model/Account.java:96-103 | As written: the balance is recorded unless it is zero of scale 0. |
| Decimals.FullWithdrawal | src/main/java/kata/model/Account.java:96-103 | Corrected: the balance is recorded exactly when it is numerically non-zero. |
| Decimals.WithdrawalAsWritten | src/main/java/kata/model/Account.java:70-88 | As written: zero of scale 0 is refused, and any recorded amount is non-negative at the requested scale. |
| Decimals.Withdrawal | src/main/java/kata/model/Account.java:70-88 | Corrected: numeric zero is refused, and any recorded amount is the amount or its negation and strictly positive. |
| Decimals.ScaledZeroBalanceIsWithdrawn | src/main/java/kata/model/Account.java:96-103 | 5.00 − 5.00 leaves 0.00, which the as-written guard records as a full withdrawal of 0.00 and the corrected guard refuses. |
| Decimals.ScaledZeroWithdrawalIsRecorded | src/main/java/kata/model/Account.java:70-88 | A withdrawal of 0.00 from any non-negative balance is recorded as written and refused by the corrected guard. |

## Left out

- Console output: the messages `Printer.printLine` receives and the table `printTransactionHistory` renders (`kata.io.Printer`) are not modelled. Their two-decimal `HALF_DOWN` formatting is left out too. Each mutator instead returns a `Ledger.Outcome` that names the message and carries the values it would show. A report query returns the `Accounts.Report` the renderer would be given.
- The `Printer` field and the injected printer are not modelled: the only use of the printer is the output above.
- `LocalDateTime.now()`: the public overloads without a date are not modelled separately. Every mutator takes the date as a parameter, which supplies the clock reading.
- Model: timestamps are whole minutes. Seconds and nanoseconds, which `LocalDateTime` keeps, cannot be expressed. The overloads without a date stamp entries with `LocalDateTime.now()`, which is almost never on a whole minute, and the unit tests reach them. What is lost is the filter's result for sub-minute instants. An entry stamped 00:00:30 on the day after the end date is excluded in Java, because it lies after the end bound; no model entry can be stamped there. `Accounts.DateRangeCoversDays` is stated for whole-minute stamps only.
- `Model.DateTime`: the model checks month, day-of-month, hour and minute ranges but not the month's length, where `LocalDateTime.of` throws for a date like 31 February.
- Ledger, Accounts: amounts are exact integers, and the zero guards are numeric. The scale-sensitive `BigDecimal.equals` the source uses in two guards is modelled only in `Decimals`; see Findings.
- `getTransactionsDeepCopy`'s serialization clone: Dafny sequences and datatypes are values, so the copy is the history itself and no aliasing can occur.
- The `default -> throw new RuntimeException()` branch of `performPreTransactions`: the three kinds are exhaustive, so it cannot be reached.
- Accounts.Account.Seeded: the constructor does not keep the outcomes of the replay, as the source drops its messages' text. `Accounts.Account.PerformPreTransactions` returns them.
- `kata.utils.Filter`, which `Account.java` imports, is not part of this model. The filter modelled is `societegeneralekata.utils.Filter`, the same class under the other package name.
- `RandomTransactionsGenerator` (random seed data), both `Application` entry points and the unit tests' mocking of the printer are not modelled. They are input, randomness and I/O around the core.

## Findings

| source | as written | input that shows it | evidently intended | confidence | as-written member | corrected member |
|---|---|---|---|---|---|---|
| src/main/java/kata/model/Account.java:96 | `withdrawAllFunds` refuses only a balance that `equals(BigDecimal.ZERO)`, which also compares the scale | balance 5.00 − 5.00 = 0.00 (scale 2): a full withdrawal of 0.00 is recorded, an entry with a zero amount | refuse every numerically zero balance, as `makeDeposit` does with `compareTo` (line 57) | high; not executed | Decimals.FullWithdrawalAsWritten, Decimals.ScaledZeroBalanceIsWithdrawn | Decimals.FullWithdrawal |
| src/main/java/kata/model/Account.java:70 | `makeWithdrawal` refuses only an amount that `equals(BigDecimal.ZERO)` | amount 0.00 with any balance: a withdrawal of 0.00 is recorded | refuse every numerically zero amount | high; not executed | Decimals.WithdrawalAsWritten, Decimals.ScaledZeroWithdrawalIsRecorded | Decimals.Withdrawal |

The rest of the model (`Ledger`, `Accounts`) uses the corrected, numeric guards. Its invariant
`Ledger.Consistent` includes "every recorded amount is positive", which the as-written guards
break.

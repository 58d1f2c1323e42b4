/**
 * The seed data the account's unit tests use, and what the model computes
 * from it: balances after each seed, the seeded history, the entries the
 * mixed valid and invalid seeds add, and the sizes of the filtered views.
 */
module Seeds {
  import opened Wrappers
  import opened Model
  import Filter
  import Ledger
  import Sequences

  /** `generateGeneralPreTransactions`. */
  function GeneralSeeds(): seq<PreTransaction> {
    [ PreTransaction(DateTime(2025, 1, 16, 10, 30), "Salary", 11000, Deposit),
      PreTransaction(DateTime(2025, 1, 17, 11, 45), "Full transfer to another account", 0, FullWithdrawal),
      PreTransaction(DateTime(2025, 1, 25, 13, 21), "Fund return", 800, Deposit),
      PreTransaction(DateTime(2025, 2, 2, 10, 30), "Salary", 11000, Deposit),
      PreTransaction(DateTime(2025, 2, 18, 8, 30), "Salary", 5000, Withdrawal),
      PreTransaction(DateTime(2025, 2, 27, 15, 15), "Bonus for February", 2300, Deposit) ]
  }

  /** `generateValidAndInvalidPreTransactions`. */
  function MixedSeeds(): seq<PreTransaction> {
    [ PreTransaction(DateTime(2025, 1, 16, 10, 30), "Car purchase", 9100, Withdrawal),
      PreTransaction(DateTime(2025, 1, 17, 11, 45), "Full transfer to another account", 0, FullWithdrawal),
      PreTransaction(DateTime(2025, 1, 25, 13, 21), "Laptop purchase", 800, Withdrawal),
      PreTransaction(DateTime(2025, 2, 2, 10, 30), "Refund", 1000, Deposit),
      PreTransaction(DateTime(2025, 2, 18, 8, 30), "Small expense", 0, Withdrawal),
      PreTransaction(DateTime(2025, 2, 2, 10, 30), "Zero deposit", 0, Deposit),
      PreTransaction(DateTime(2025, 2, 2, 10, 30), "Negative amount deposit", -300, Deposit),
      PreTransaction(DateTime(2025, 2, 27, 15, 15), "Negative amount withdrawal", -100, Withdrawal) ]
  }

  /** The history of the account built from the general seeds (dates as in `SeedDates`). */
  function GeneralHistory(): seq<Transaction> {
    [ Transaction(28950390, "Salary", 11000, 11000, Deposit),
      Transaction(28951905, Ledger.FullWithdrawalDescription, 11000, 0, FullWithdrawal),
      Transaction(28963521, "Fund return", 800, 800, Deposit),
      Transaction(28974870, "Salary", 11000, 11800, Deposit),
      Transaction(28997790, "Salary", 5000, 6800, Withdrawal),
      Transaction(29011155, "Bonus for February", 2300, 9100, Deposit) ]
  }

  /** The balance after each general seed in turn: 11000, 0, 800, 11800, 6800, 9100. */
  lemma GeneralSeedBalances()
    ensures Ledger.PerformPreTransactions(Ledger.Empty, GeneralSeeds()) == Ledger.State(GeneralHistory(), 9100)
  {
    SeedDates();
    var g := GeneralSeeds();
    var h := GeneralHistory();
    var s0 := Ledger.Empty;
    var s1 := Ledger.Perform(s0, g[0]).state;
    assert s1 == Ledger.State(h[..1], 11000);
    var s2 := Ledger.Perform(s1, g[1]).state;
    assert s2 == Ledger.State(h[..2], 0);
    var s3 := Ledger.Perform(s2, g[2]).state;
    assert s3 == Ledger.State(h[..3], 800);
    var s4 := Ledger.Perform(s3, g[3]).state;
    assert s4 == Ledger.State(h[..4], 11800);
    var s5 := Ledger.Perform(s4, g[4]).state;
    assert s5 == Ledger.State(h[..5], 6800);
    var s6 := Ledger.Perform(s5, g[5]).state;
    assert s6 == Ledger.State(h, 9100);
    assert g[1..][1..][1..][1..][1..][1..] == [];
  }

  /** The entries the mixed seeds add to the seeded history: the car purchase, the refund, the -100 withdrawal. */
  function MixedEntries(): seq<Transaction> {
    [ Transaction(DateTime(2025, 1, 16, 10, 30), "Car purchase", 9100, 0, Withdrawal),
      Transaction(DateTime(2025, 2, 2, 10, 30), "Refund", 1000, 1000, Deposit),
      Transaction(DateTime(2025, 2, 27, 15, 15), "Negative amount withdrawal", 100, 900, Withdrawal) ]
  }

  /**
   * The first four mixed seeds on the seeded account: the car purchase empties it, the full
   * withdrawal finds no funds, the laptop purchase finds too little, the refund is recorded.
   */
  lemma MixedSeedsFirstHalf()
    ensures var m := MixedSeeds();
      var r1 := Ledger.Perform(Ledger.State(GeneralHistory(), 9100), m[0]);
      var r2 := Ledger.Perform(r1.state, m[1]);
      var r3 := Ledger.Perform(r2.state, m[2]);
      var r4 := Ledger.Perform(r3.state, m[3]);
      && r1.outcome == Ledger.Withdrawn(9100, 0)
      && r2.outcome == Ledger.NoFunds
      && r3.outcome == Ledger.InsufficientFunds(800)
      && r4.outcome == Ledger.Deposited(1000, 1000)
      && Ledger.PerformPreTransactions(Ledger.State(GeneralHistory(), 9100), m[..4])
         == Ledger.State(GeneralHistory() + MixedEntries()[..2], 1000)
  {
    var m := MixedSeeds()[..4];
    var e := MixedEntries();
    var s0 := Ledger.State(GeneralHistory(), 9100);
    var s1 := Ledger.Perform(s0, m[0]).state;
    assert s1 == Ledger.State(GeneralHistory() + [e[0]], 0);
    var s2 := Ledger.Perform(s1, m[1]).state;
    assert s2 == s1;
    var s3 := Ledger.Perform(s2, m[2]).state;
    assert s3 == s1;
    var s4 := Ledger.Perform(s3, m[3]).state;
    assert s4.history == GeneralHistory() + [e[0]] + [e[1]];
    assert GeneralHistory() + [e[0]] + [e[1]] == GeneralHistory() + e[..2];
    assert m[1..][1..][1..][1..] == [];
  }

  /**
   * The last four mixed seeds, from a balance of 1000: the zero withdrawal, the zero deposit and
   * the negative deposit are refused as not positive, and the withdrawal of -100 takes 100.
   */
  lemma MixedSeedsSecondHalf(s0: Ledger.State)
    requires s0.balance == 1000
    ensures var m := MixedSeeds();
      && Ledger.Perform(s0, m[4]).outcome == Ledger.NonPositiveAmount
      && Ledger.Perform(s0, m[5]).outcome == Ledger.NonPositiveAmount
      && Ledger.Perform(s0, m[6]).outcome == Ledger.NonPositiveAmount
      && Ledger.Perform(s0, m[7]).outcome == Ledger.Withdrawn(100, 900)
      && Ledger.PerformPreTransactions(s0, m[4..]) == Ledger.State(s0.history + [MixedEntries()[2]], 900)
  {
    var m := MixedSeeds()[4..];
    var s1 := Ledger.Perform(s0, m[0]).state;
    assert s1 == s0;
    var s2 := Ledger.Perform(s1, m[1]).state;
    assert s2 == s0;
    var s3 := Ledger.Perform(s2, m[2]).state;
    assert s3 == s0;
    assert m[1..][1..][1..][1..] == [];
  }

  /** Of the eight mixed seeds replayed after the general ones, exactly three are recorded, leaving 900. */
  lemma MixedSeedsRecordThree()
    ensures Ledger.PerformPreTransactions(Ledger.State(GeneralHistory(), 9100), MixedSeeds())
         == Ledger.State(GeneralHistory() + MixedEntries(), 900)
  {
    var m := MixedSeeds();
    var e := MixedEntries();
    var s0 := Ledger.State(GeneralHistory(), 9100);
    assert m == m[..4] + m[4..];
    Ledger.PerformPreTransactionsAppend(s0, m[..4], m[4..]);
    MixedSeedsFirstHalf();
    MixedSeedsSecondHalf(Ledger.State(GeneralHistory() + e[..2], 1000));
    assert e[..2] + [e[2]] == e;
    Sequences.AppendAssociative(GeneralHistory(), e[..2], [e[2]]);
  }

  /** The January seed dates, as days since 1970-01-01. */
  lemma JanuaryDays()
    ensures EpochDay(2025, 1, 16) == 20104 && EpochDay(2025, 1, 17) == 20105 && EpochDay(2025, 1, 25) == 20113
  {
  }

  /** The February seed dates, as days since 1970-01-01. */
  lemma FebruaryDays()
    ensures EpochDay(2025, 2, 2) == 20121 && EpochDay(2025, 2, 18) == 20137
    ensures EpochDay(2025, 2, 19) == 20138 && EpochDay(2025, 2, 27) == 20146
  {
  }

  /** The seed instants, as minutes since 1970-01-01 00:00. */
  lemma SeedDates()
    ensures DateTime(2025, 1, 16, 10, 30) == 28950390
    ensures DateTime(2025, 1, 17, 11, 45) == 28951905
    ensures DateTime(2025, 1, 25, 13, 21) == 28963521
    ensures DateTime(2025, 2, 2, 10, 30) == 28974870
    ensures DateTime(2025, 2, 18, 8, 30) == 28997790
    ensures DateTime(2025, 2, 27, 15, 15) == 29011155
    ensures DateTime(2025, 1, 25, 0, 0) == 28962720
    ensures DateTime(2025, 2, 19, 0, 0) == 28998720
  {
    JanuaryDays();
    FebruaryDays();
  }

  lemma TypeCons(t: Transaction, rest: seq<Transaction>, kind: TransactionType)
    ensures Filter.FilterByType([t] + rest, kind)
         == (if Filter.IsOfType(t, kind) then [t] else []) + Filter.FilterByType(rest, kind)
  {
    assert ([t] + rest)[1..] == rest;
  }

  lemma RangeCons(t: Transaction, rest: seq<Transaction>, start: Time, end: Time)
    ensures Filter.FilterByTimeRange([t] + rest, start, end)
         == (if Filter.InTimeRange(t, start, end) then [t] else []) + Filter.FilterByTimeRange(rest, start, end)
  {
    assert ([t] + rest)[1..] == rest;
  }

  lemma TypeOfThree(a: Transaction, b: Transaction, c: Transaction, kind: TransactionType)
    ensures Filter.FilterByType([a, b, c], kind)
         == (if Filter.IsOfType(a, kind) then [a] else []) + (if Filter.IsOfType(b, kind) then [b] else [])
          + (if Filter.IsOfType(c, kind) then [c] else [])
  {
    assert [a, b, c] == [a] + ([b] + [c]);
    TypeCons(c, [], kind);
    TypeCons(b, [c], kind);
    TypeCons(a, [b] + [c], kind);
  }

  lemma RangeOfThree(a: Transaction, b: Transaction, c: Transaction, start: Time, end: Time)
    ensures Filter.FilterByTimeRange([a, b, c], start, end)
         == (if Filter.InTimeRange(a, start, end) then [a] else []) + (if Filter.InTimeRange(b, start, end) then [b] else [])
          + (if Filter.InTimeRange(c, start, end) then [c] else [])
  {
    assert [a, b, c] == [a] + ([b] + [c]);
    RangeCons(c, [], start, end);
    RangeCons(b, [c], start, end);
    RangeCons(a, [b] + [c], start, end);
  }

  /** The general history in two halves, so that each half is filtered on its own. */
  lemma GeneralHistoryHalves()
    ensures var h := GeneralHistory(); h == [h[0], h[1], h[2]] + [h[3], h[4], h[5]]
  {
  }

  lemma TypeOfGeneralHistory(kind: TransactionType)
    ensures var h := GeneralHistory();
      Filter.FilterByTimeRangeAndType(h, None, None, Some(kind))
      == Filter.FilterByType([h[0], h[1], h[2]], kind) + Filter.FilterByType([h[3], h[4], h[5]], kind)
  {
    var h := GeneralHistory();
    GeneralHistoryHalves();
    Filter.FilterByTypeAppend([h[0], h[1], h[2]], [h[3], h[4], h[5]], kind);
  }

  /** 2025-01-25 00:00 through 2025-02-19 00:00 keeps the three entries dated in between. */
  lemma GeneralHistoryInRange()
    ensures var h := GeneralHistory();
      Filter.FilterByTimeRangeAndType(h, Some(DateTime(2025, 1, 25, 0, 0)), Some(DateTime(2025, 2, 19, 0, 0)), None)
      == [h[2], h[3], h[4]]
  {
    SeedDates();
    var h := GeneralHistory();
    var start, end := DateTime(2025, 1, 25, 0, 0), DateTime(2025, 2, 19, 0, 0);
    GeneralHistoryHalves();
    Filter.FilterByTimeRangeAppend([h[0], h[1], h[2]], [h[3], h[4], h[5]], start, end);
    RangeOfThree(h[0], h[1], h[2], start, end);
    RangeOfThree(h[3], h[4], h[5], start, end);
  }

  /** Four deposits. */
  lemma GeneralHistoryDeposits()
    ensures var h := GeneralHistory();
      Filter.FilterByTimeRangeAndType(h, None, None, Some(Deposit)) == [h[0], h[2], h[3], h[5]]
  {
    var h := GeneralHistory();
    TypeOfGeneralHistory(Deposit);
    TypeOfThree(h[0], h[1], h[2], Deposit);
    TypeOfThree(h[3], h[4], h[5], Deposit);
  }

  /** Two withdrawals: the full one and the plain one. */
  lemma GeneralHistoryWithdrawals()
    ensures var h := GeneralHistory();
      Filter.FilterByTimeRangeAndType(h, None, None, Some(Withdrawal)) == [h[1], h[4]]
  {
    var h := GeneralHistory();
    TypeOfGeneralHistory(Withdrawal);
    TypeOfThree(h[0], h[1], h[2], Withdrawal);
    TypeOfThree(h[3], h[4], h[5], Withdrawal);
  }

  /** Two deposits inside the range. */
  lemma GeneralHistoryRangeAndDeposit()
    ensures var h := GeneralHistory();
      Filter.FilterByTimeRangeAndType(h, Some(DateTime(2025, 1, 25, 0, 0)), Some(DateTime(2025, 2, 19, 0, 0)),
                                      Some(Deposit)) == [h[2], h[3]]
  {
    GeneralHistoryInRange();
    var h := GeneralHistory();
    TypeOfThree(h[2], h[3], h[4], Deposit);
  }

  /** No full withdrawal inside the range: an empty result. */
  lemma GeneralHistoryRangeAndFullWithdrawal()
    ensures var h := GeneralHistory();
      Filter.FilterByTimeRangeAndType(h, Some(DateTime(2025, 1, 25, 0, 0)), Some(DateTime(2025, 2, 19, 0, 0)),
                                      Some(FullWithdrawal)) == []
  {
    GeneralHistoryInRange();
    var h := GeneralHistory();
    TypeOfThree(h[2], h[3], h[4], FullWithdrawal);
  }
}

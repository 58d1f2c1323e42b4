/**
 * The summarizer: the optional totals a report shows, chosen by the kind the
 * report was filtered on.
 */
module Calculator {
  import opened Wrappers
  import opened Model
  import Filter

  /** `calculateSumOfDepositsOrWithdrawals`: the amounts added up from zero. */
  function SumOfAmounts(ts: seq<Transaction>): Amount {
    if ts == [] then 0 else ts[0].amount + SumOfAmounts(ts[1..])
  }

  /** `calculateSumOfTransactionsOfType`: the amounts of the entries matching `kind`. */
  function SumOfTransactionsOfType(ts: seq<Transaction>, kind: TransactionType): Amount {
    SumOfAmounts(Filter.FilterByType(ts, kind))
  }

  /** `calculateSumsOfTransactionsForPrinting`. */
  function CalculateSums(balance: Amount, kind: Option<TransactionType>, ts: seq<Transaction>): (r: SumsOfTransactions)
    ensures r.balance.Some? <==> kind.None?
    ensures r.sumOfDeposits.Some? <==> kind != Some(Withdrawal) && kind != Some(FullWithdrawal)
    ensures r.sumOfWithdrawals.Some? <==> kind != Some(Deposit)
  {
    var shownBalance := if kind.None? then Some(balance) else None;
    if kind == Some(Deposit) then
      SumsOfTransactions(Some(SumOfAmounts(ts)), None, shownBalance)
    else if kind == Some(Withdrawal) || kind == Some(FullWithdrawal) then
      SumsOfTransactions(None, Some(SumOfAmounts(ts)), shownBalance)
    else
      SumsOfTransactions(Some(SumOfTransactionsOfType(ts, Deposit)),
                         Some(SumOfTransactionsOfType(ts, Withdrawal)), shownBalance)
  }

  lemma {:induction false} SumOfAmountsAppend(a: seq<Transaction>, b: seq<Transaction>)
    ensures SumOfAmounts(a + b) == SumOfAmounts(a) + SumOfAmounts(b)
  {
    if a == [] {
      assert a + b == b;
    } else {
      var ab := a + b;
      assert ab != [] && ab[0] == a[0];
      assert ab[1..] == a[1..] + b;
      assert SumOfAmounts(ab) == a[0].amount + SumOfAmounts(a[1..] + b);
      SumOfAmountsAppend(a[1..], b);
    }
  }

  /** Type totals over a history extended by one entry. */
  lemma SumOfTypeSnoc(ts: seq<Transaction>, t: Transaction, kind: TransactionType)
    ensures SumOfTransactionsOfType(ts + [t], kind)
         == SumOfTransactionsOfType(ts, kind) + (if Filter.IsOfType(t, kind) then t.amount else 0)
  {
    Filter.FilterByTypeAppend(ts, [t], kind);
    SumOfAmountsAppend(Filter.FilterByType(ts, kind), Filter.FilterByType([t], kind));
    assert [t][1..] == [];
  }

  /** Every entry is either a deposit or in the withdrawal family, so the two totals split the whole sum. */
  lemma {:induction false} DepositsAndWithdrawalsSplitTotal(ts: seq<Transaction>)
    ensures SumOfTransactionsOfType(ts, Deposit) + SumOfTransactionsOfType(ts, Withdrawal) == SumOfAmounts(ts)
  {
    if ts != [] {
      var t := ts[0];
      var d := if Filter.IsOfType(t, Deposit) then [t] else [];
      var w := if Filter.IsOfType(t, Withdrawal) then [t] else [];
      SumOfAmountsAppend(d, Filter.FilterByType(ts[1..], Deposit));
      SumOfAmountsAppend(w, Filter.FilterByType(ts[1..], Withdrawal));
      DepositsAndWithdrawalsSplitTotal(ts[1..]);
    }
  }

  /** Without a kind filter: the account balance and both totals, which together add up to the selection. */
  lemma SumsWithoutKind(balance: Amount, ts: seq<Transaction>)
    ensures var r := CalculateSums(balance, None, ts);
      && r.balance == Some(balance)
      && r.sumOfDeposits == Some(SumOfAmounts(Filter.FilterByTimeRangeAndType(ts, None, None, Some(Deposit))))
      && r.sumOfWithdrawals == Some(SumOfAmounts(Filter.FilterByTimeRangeAndType(ts, None, None, Some(Withdrawal))))
      && r.sumOfDeposits.value + r.sumOfWithdrawals.value == SumOfAmounts(ts)
  {
    DepositsAndWithdrawalsSplitTotal(ts);
  }

  /** With a deposit filter: only the deposit total, over every given entry. */
  lemma SumsOfDeposits(balance: Amount, ts: seq<Transaction>)
    ensures CalculateSums(balance, Some(Deposit), ts) == SumsOfTransactions(Some(SumOfAmounts(ts)), None, None)
  {
  }

  /** With a withdrawal or full-withdrawal filter: only the withdrawal total, over every given entry. */
  lemma SumsOfWithdrawals(balance: Amount, kind: TransactionType, ts: seq<Transaction>)
    requires kind != Deposit
    ensures CalculateSums(balance, Some(kind), ts) == SumsOfTransactions(None, Some(SumOfAmounts(ts)), None)
  {
  }

  /** Nothing selected: every present total is zero. */
  lemma SumsOfEmptySelection(balance: Amount, kind: Option<TransactionType>)
    ensures var r := CalculateSums(balance, kind, []);
      && (r.sumOfDeposits.Some? ==> r.sumOfDeposits.value == 0)
      && (r.sumOfWithdrawals.Some? ==> r.sumOfWithdrawals.value == 0)
  {
    assert Filter.FilterByType([], Deposit) == [];
    assert Filter.FilterByType([], Withdrawal) == [];
  }

  /**
   * A report filtered on a kind shows the same total that the unfiltered report over the
   * same range shows for that family: deposits for a deposit report, all withdrawals for a
   * withdrawal report.
   */
  lemma FilteredTotalAgreesWithUnfiltered(balance: Amount, ts: seq<Transaction>, start: Option<Time>,
                                          end: Option<Time>, kind: TransactionType)
    requires kind != FullWithdrawal
    ensures var ranged := Filter.FilterByTimeRangeAndType(ts, start, end, None);
      var all := CalculateSums(balance, None, ranged);
      var only := CalculateSums(balance, Some(kind), Filter.FilterByTimeRangeAndType(ts, start, end, Some(kind)));
      if kind == Deposit then only.sumOfDeposits == all.sumOfDeposits
      else only.sumOfWithdrawals == all.sumOfWithdrawals
  {
    var ranged := Filter.FilterByTimeRangeAndType(ts, start, end, None);
    Filter.FilterByTypeIdempotent(ranged, kind);
  }
}

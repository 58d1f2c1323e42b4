/**
 * The account object: a balance and an append-only history, updated in
 * place by the three mutators, plus the report queries.
 */
module Accounts {
  import opened Wrappers
  import opened Model
  import Filter
  import Calculator
  import Ledger

  /** What a report query hands to the renderer: the selection, its totals and the range it used. */
  datatype Report = Report(
    transactions: seq<Transaction>,
    sums: SumsOfTransactions,
    start: Option<Time>,
    end: Option<Time>)

  /**
   * The range a report uses: only when both dates are given, from the start date at 00:00
   * to the day after the end date at 00:00.
   */
  function DateRange(startDate: Option<Day>, endDate: Option<Day>): (r: (Option<Time>, Option<Time>))
    ensures r.0.Some? <==> startDate.Some? && endDate.Some?
    ensures r.1.Some? <==> r.0.Some?
    ensures r.0.Some? ==> r.0.value == StartOfDay(startDate.value) && DayOf(r.0.value) == startDate.value
    ensures r.1.Some? ==> r.1.value == StartOfDay(endDate.value + 1) && DayOf(r.1.value) == endDate.value + 1
  {
    if startDate.Some? && endDate.Some? then
      StartOfDayOrder(startDate.value, endDate.value + 1);
      StartOfDayOrder(endDate.value + 1, startDate.value);
      (Some(StartOfDay(startDate.value)), Some(StartOfDay(endDate.value + 1)))
    else
      (None, None)
  }

  /** `printFilteredTransactions` on a given state: range, selection, totals. */
  function Query(s: Ledger.State, startDate: Option<Day>, endDate: Option<Day>, kind: Option<TransactionType>): Report
  {
    var (start, end) := DateRange(startDate, endDate);
    var selected := Filter.FilterByTimeRangeAndType(s.history, start, end, kind);
    Report(selected, Calculator.CalculateSums(s.balance, kind, selected), start, end)
  }

  /**
   * A dated report keeps every entry from the start date through the end date, and besides those
   * only an entry stamped exactly 00:00 on the day after the end date (the range's end is inclusive).
   */
  lemma DateRangeCoversDays(startDate: Day, endDate: Day, t: Transaction)
    ensures var (start, end) := DateRange(Some(startDate), Some(endDate));
      (Filter.InTimeRange(t, start.value, end.value)
       <==> startDate <= DayOf(t.date) && (DayOf(t.date) <= endDate || t.date == StartOfDay(endDate + 1)))
  {
    var d := DayOf(t.date);
    StartOfDayOrder(d + 1, startDate);
    StartOfDayOrder(endDate + 1, d);
    StartOfDayOrder(d, endDate + 1);
  }

  /** Which entries a report shows, with or without dates and kind. */
  lemma QueryMembership(s: Ledger.State, startDate: Option<Day>, endDate: Option<Day>,
                        kind: Option<TransactionType>, t: Transaction)
    ensures t in Query(s, startDate, endDate, kind).transactions
        <==> && t in s.history
             && (startDate.Some? && endDate.Some? ==>
                   && startDate.value <= DayOf(t.date)
                   && (DayOf(t.date) <= endDate.value || t.date == StartOfDay(endDate.value + 1)))
             && (kind.Some? ==> Filter.InFamily(t.kind, kind.value))
  {
    var (start, end) := DateRange(startDate, endDate);
    Filter.FilterMembership(s.history, start, end, kind, t);
    if startDate.Some? && endDate.Some? {
      DateRangeCoversDays(startDate.value, endDate.value, t);
    }
  }

  /** The full-history report shows everything, and its totals reconcile with the balance. */
  lemma HistoryReportReconciles(s: Ledger.State)
    requires Ledger.Consistent(s)
    ensures var r := Query(s, None, None, None);
      && r.transactions == s.history
      && r.sums.balance == Some(s.balance)
      && r.sums.sumOfDeposits.Some? && r.sums.sumOfWithdrawals.Some?
      && r.sums.sumOfDeposits.value - r.sums.sumOfWithdrawals.value == s.balance
  {
    Ledger.ConsistentBalance(s);
  }

  class Account {
    var transactions: seq<Transaction>
    var balance: Amount

    function State(): Ledger.State
      reads this
    {
      Ledger.State(transactions, balance)
    }

    predicate Valid()
      reads this
    {
      Ledger.Consistent(State())
    }

    /** The empty account. */
    constructor ()
      ensures Valid() && transactions == [] && balance == 0
    {
      transactions, balance := [], 0;
    }

    /** An account whose history is the replay of `pres`. */
    constructor Seeded(pres: seq<PreTransaction>)
      ensures Valid() && State() == Ledger.PerformPreTransactions(Ledger.Empty, pres)
    {
      transactions, balance := [], 0;
      new;
      var _ := PerformPreTransactions(pres);
    }

    /** Replay each seed through the mutator its kind names; returns the messages in order. */
    method PerformPreTransactions(pres: seq<PreTransaction>) returns (outcomes: seq<Ledger.Outcome>)
      requires Valid()
      modifies this
      ensures Valid()
      ensures State() == Ledger.PerformPreTransactions(old(State()), pres)
      ensures |outcomes| == |pres|
      ensures forall i | 0 <= i < |pres| ::
        outcomes[i] == Ledger.Perform(Ledger.PerformPreTransactions(old(State()), pres[..i]), pres[i]).outcome
    {
      ghost var initial := State();
      outcomes := [];
      var i := 0;
      while i < |pres|
        invariant 0 <= i <= |pres|
        invariant Valid()
        invariant State() == Ledger.PerformPreTransactions(initial, pres[..i])
        invariant |outcomes| == i
        invariant forall j | 0 <= j < i ::
          outcomes[j] == Ledger.Perform(Ledger.PerformPreTransactions(initial, pres[..j]), pres[j]).outcome
      {
        var p := pres[i];
        var outcome := Perform(p);
        Ledger.PerformPreTransactionsSnoc(initial, pres[..i], p);
        assert pres[..i + 1] == pres[..i] + [p];
        outcomes := outcomes + [outcome];
        i := i + 1;
      }
      assert pres[..|pres|] == pres;
    }

    /** The body of the replay loop: the mutator the seed's kind names. */
    method Perform(p: PreTransaction) returns (outcome: Ledger.Outcome)
      requires Valid()
      modifies this
      ensures Valid()
      ensures Ledger.Step(State(), outcome) == Ledger.Perform(old(State()), p)
    {
      match p.kind {
        case Deposit => outcome := MakeDeposit(p.amount, p.description, p.date);
        case Withdrawal => outcome := MakeWithdrawal(p.amount, p.description, p.date);
        case FullWithdrawal => outcome := WithdrawAllFunds(p.date);
      }
    }

    /** `makeDeposit`: rejects a non-positive amount, otherwise adds it and records a deposit. */
    method MakeDeposit(amount: Amount, description: string, date: Time) returns (outcome: Ledger.Outcome)
      requires Valid()
      modifies this
      ensures Valid()
      ensures Ledger.Step(State(), outcome) == Ledger.MakeDeposit(old(State()), amount, description, date)
      ensures amount <= 0 ==> unchanged(this) && outcome == Ledger.NonPositiveAmount
      ensures amount > 0 ==>
        && balance == old(balance) + amount
        && transactions == old(transactions) + [Transaction(date, description, amount, balance, Deposit)]
    {
      Ledger.MakeDepositKeepsConsistent(State(), amount, description, date);
      if amount <= 0 {
        return Ledger.NonPositiveAmount;
      }
      balance := balance + amount;
      outcome := RegisterTransaction(amount, description, Deposit, date);
    }

    /** `makeWithdrawal`: rejects zero, takes a negative amount's magnitude, rejects an overdraft. */
    method MakeWithdrawal(amount: Amount, description: string, date: Time) returns (outcome: Ledger.Outcome)
      requires Valid()
      modifies this
      ensures Valid()
      ensures Ledger.Step(State(), outcome) == Ledger.MakeWithdrawal(old(State()), amount, description, date)
      ensures amount == 0 ==> unchanged(this) && outcome == Ledger.NonPositiveAmount
      ensures amount != 0 && Ledger.Magnitude(amount) > old(balance) ==>
        unchanged(this) && outcome == Ledger.InsufficientFunds(Ledger.Magnitude(amount))
      ensures amount != 0 && Ledger.Magnitude(amount) <= old(balance) ==>
        && balance == old(balance) - Ledger.Magnitude(amount)
        && transactions
           == old(transactions) + [Transaction(date, description, Ledger.Magnitude(amount), balance, Withdrawal)]
    {
      Ledger.MakeWithdrawalKeepsConsistent(State(), amount, description, date);
      if amount == 0 {
        return Ledger.NonPositiveAmount;
      }
      var magnitude := amount;
      if magnitude < 0 {
        magnitude := -magnitude;
      }
      if balance < magnitude {
        return Ledger.InsufficientFunds(magnitude);
      }
      balance := balance - magnitude;
      outcome := RegisterTransaction(magnitude, description, Withdrawal, date);
    }

    /** `withdrawAllFunds`: rejects an empty balance, otherwise withdraws all of it. */
    method WithdrawAllFunds(date: Time) returns (outcome: Ledger.Outcome)
      requires Valid()
      modifies this
      ensures Valid()
      ensures Ledger.Step(State(), outcome) == Ledger.WithdrawAllFunds(old(State()), date)
      ensures old(balance) == 0 ==> unchanged(this) && outcome == Ledger.NoFunds
      ensures old(balance) != 0 ==>
        && balance == 0
        && transactions == old(transactions)
           + [Transaction(date, Ledger.FullWithdrawalDescription, old(balance), 0, FullWithdrawal)]
        && outcome == Ledger.FullyWithdrawn(old(balance))
    {
      Ledger.WithdrawAllFundsKeepsConsistent(State(), date);
      if balance == 0 {
        return Ledger.NoFunds;
      }
      var transactionAmount := balance;
      balance := 0;
      outcome := RegisterTransaction(transactionAmount, Ledger.FullWithdrawalDescription, FullWithdrawal, date);
    }

    /** `registerTransaction`: append an entry stamped with the current balance. */
    method RegisterTransaction(amount: Amount, description: string, kind: TransactionType, date: Time)
      returns (outcome: Ledger.Outcome)
      modifies this
      ensures balance == old(balance)
      ensures transactions == old(transactions) + [Transaction(date, description, amount, balance, kind)]
      ensures Ledger.Step(State(), outcome) == Ledger.RegisterTransaction(old(State()), amount, description, kind, date)
    {
      transactions := transactions + [Transaction(date, description, amount, balance, kind)];
      match kind {
        case Deposit => outcome := Ledger.Deposited(amount, balance);
        case Withdrawal => outcome := Ledger.Withdrawn(amount, balance);
        case FullWithdrawal => outcome := Ledger.FullyWithdrawn(amount);
      }
    }

    /** `printFilteredTransactions`: the report the renderer is given. */
    method FilteredReport(startDate: Option<Day>, endDate: Option<Day>, kind: Option<TransactionType>)
      returns (report: Report)
      ensures report == Query(State(), startDate, endDate, kind)
    {
      var start: Option<Time> := None;
      var end: Option<Time> := None;
      if startDate.Some? && endDate.Some? {
        start := Some(StartOfDay(startDate.value));
        end := Some(StartOfDay(endDate.value + 1));
      }
      var selected := Filter.FilterByTimeRangeAndType(transactions, start, end, kind);
      var sums := Calculator.CalculateSums(balance, kind, selected);
      report := Report(selected, sums, start, end);
    }

    /** `printAllTransactionHistory`. */
    method HistoryReport() returns (report: Report)
      requires Valid()
      ensures report.transactions == transactions && report.start.None? && report.end.None?
      ensures report.sums == SumsOfTransactions(
        Some(Calculator.SumOfTransactionsOfType(transactions, Deposit)),
        Some(Calculator.SumOfTransactionsOfType(transactions, Withdrawal)),
        Some(balance))
      ensures report.sums.sumOfDeposits.value - report.sums.sumOfWithdrawals.value == balance
    {
      report := FilteredReport(None, None, None);
      HistoryReportReconciles(State());
    }

    /** `printAllDeposits`. */
    method DepositsReport() returns (report: Report)
      ensures report == Query(State(), None, None, Some(Deposit))
      ensures forall t | t in report.transactions :: t in transactions && t.kind == Deposit
      ensures report.sums == SumsOfTransactions(Some(Calculator.SumOfAmounts(report.transactions)), None, None)
    {
      report := FilteredReport(None, None, Some(Deposit));
      forall t | t in report.transactions
        ensures t in transactions && t.kind == Deposit
      {
        Filter.ExactKind(transactions, Deposit, t);
      }
    }

    /** `printAllWithdrawals`: plain and full withdrawals together. */
    method WithdrawalsReport() returns (report: Report)
      ensures report == Query(State(), None, None, Some(Withdrawal))
      ensures forall t | t in report.transactions ::
        t in transactions && (t.kind == Withdrawal || t.kind == FullWithdrawal)
      ensures report.sums == SumsOfTransactions(None, Some(Calculator.SumOfAmounts(report.transactions)), None)
    {
      report := FilteredReport(None, None, Some(Withdrawal));
      forall t | t in report.transactions
        ensures t in transactions && (t.kind == Withdrawal || t.kind == FullWithdrawal)
      {
        Filter.WithdrawalFamily(transactions, t);
      }
    }

    /** `printTransactionsInTimeRange`. */
    method RangeReport(startDate: Day, endDate: Day) returns (report: Report)
      ensures report == Query(State(), Some(startDate), Some(endDate), None)
      ensures report.start == Some(StartOfDay(startDate)) && report.end == Some(StartOfDay(endDate + 1))
      ensures report.sums.balance == Some(balance)
    {
      report := FilteredReport(Some(startDate), Some(endDate), None);
    }

    /** `printTransactionsByTimeRangeAndType`. */
    method RangeAndTypeReport(startDate: Option<Day>, endDate: Option<Day>, kind: Option<TransactionType>)
      returns (report: Report)
      ensures report == Query(State(), startDate, endDate, kind)
    {
      report := FilteredReport(startDate, endDate, kind);
    }

    /** `getBalance`. */
    function GetBalance(): (b: Amount)
      reads this
      requires Valid()
      ensures b >= 0 && b == Ledger.Replay(transactions)
    {
      Ledger.ConsistentBalance(State());
      balance
    }

    /** `getTransactionsDeepCopy`: the history as an immutable value. */
    method GetTransactionsDeepCopy() returns (copy: seq<Transaction>)
      requires Valid()
      ensures copy == transactions
      ensures Ledger.Recorded(copy) && Ledger.LastBalance(copy) == balance
    {
      copy := transactions;
    }
  }
}

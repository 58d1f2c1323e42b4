/**
 * The account's operations as functions on its state (the history and the
 * balance), with the invariant every operation keeps.  The `Account` class
 * runs the same steps in place and is proved to agree with these functions.
 */
module Ledger {
  import opened Model
  import Filter
  import Calculator

  const FullWithdrawalDescription: string := "Full withdrawal of funds"

  /** What a mutator reports; each case stands for one message of the account. */
  datatype Outcome =
    | Deposited(amount: Amount, newBalance: Amount)
    | Withdrawn(amount: Amount, newBalance: Amount)
    | FullyWithdrawn(amount: Amount)
    | NonPositiveAmount
    | InsufficientFunds(requested: Amount)
    | NoFunds
  {
    predicate IsRejection() {
      NonPositiveAmount? || InsufficientFunds? || NoFunds?
    }
  }

  datatype State = State(history: seq<Transaction>, balance: Amount)

  datatype Step = Step(state: State, outcome: Outcome)

  const Empty: State := State([], 0)

  /** One entry's effect on a running balance: a deposit adds, a withdrawal subtracts, a full withdrawal resets. */
  function Effect(before: Amount, t: Transaction): Amount {
    match t.kind
    case Deposit => before + t.amount
    case Withdrawal => before - t.amount
    case FullWithdrawal => 0
  }

  /** The balance recomputed from the history alone, left to right from zero. */
  function Replay(h: seq<Transaction>): Amount
    decreases |h|
  {
    if h == [] then 0 else Effect(Replay(h[..|h| - 1]), h[|h| - 1])
  }

  /** The balance stamped on the latest entry, or zero for an empty history. */
  function LastBalance(h: seq<Transaction>): Amount {
    if h == [] then 0 else h[|h| - 1].balanceAfter
  }

  /** An entry the account can have appended on top of balance `before`. */
  predicate ValidEntry(before: Amount, t: Transaction) {
    && t.amount > 0
    && t.balanceAfter == Effect(before, t)
    && (t.kind == Withdrawal ==> t.amount <= before)
    && (t.kind == FullWithdrawal ==> t.amount == before)
  }

  /** Every entry is valid on top of the balance stamped on the one before it. */
  predicate Recorded(h: seq<Transaction>)
    decreases |h|
  {
    h == [] || (Recorded(h[..|h| - 1]) && ValidEntry(LastBalance(h[..|h| - 1]), h[|h| - 1]))
  }

  /** The account invariant: the balance is the one stamped on the latest entry of a valid history. */
  predicate Consistent(s: State) {
    s.balance == LastBalance(s.history) && Recorded(s.history)
  }

  /** `registerTransaction`: stamp the current balance into a new entry, append it, report success. */
  function RegisterTransaction(s: State, amount: Amount, description: string, kind: TransactionType,
                               date: Time): Step
  {
    var outcome := match kind
      case Deposit => Deposited(amount, s.balance)
      case Withdrawal => Withdrawn(amount, s.balance)
      case FullWithdrawal => FullyWithdrawn(amount);
    Step(State(s.history + [Transaction(date, description, amount, s.balance, kind)], s.balance), outcome)
  }

  /** `makeDeposit`. */
  function MakeDeposit(s: State, amount: Amount, description: string, date: Time): (r: Step)
    ensures r.outcome.IsRejection() <==> r.state == s
    ensures amount <= 0 ==> r == Step(s, NonPositiveAmount)
    ensures amount > 0 ==>
      && r.state.balance == s.balance + amount
      && r.state.history == s.history + [Transaction(date, description, amount, r.state.balance, Deposit)]
      && r.outcome == Deposited(amount, r.state.balance)
  {
    if amount <= 0 then Step(s, NonPositiveAmount)
    else RegisterTransaction(State(s.history, s.balance + amount), amount, description, Deposit, date)
  }

  /** The magnitude `makeWithdrawal` works with. */
  function Magnitude(amount: Amount): (m: Amount)
    ensures m >= 0 && (m == amount || m == -amount)
  {
    if amount < 0 then -amount else amount
  }

  /** `makeWithdrawal`: a negative amount is taken by its magnitude. */
  function MakeWithdrawal(s: State, amount: Amount, description: string, date: Time): (r: Step)
    ensures r.outcome.IsRejection() <==> r.state == s
    ensures amount == 0 ==> r == Step(s, NonPositiveAmount)
    ensures amount != 0 && Magnitude(amount) > s.balance ==> r == Step(s, InsufficientFunds(Magnitude(amount)))
    ensures amount != 0 && Magnitude(amount) <= s.balance ==>
      && r.state.balance == s.balance - Magnitude(amount)
      && r.state.history == s.history + [Transaction(date, description, Magnitude(amount), r.state.balance, Withdrawal)]
      && r.outcome == Withdrawn(Magnitude(amount), r.state.balance)
  {
    if amount == 0 then Step(s, NonPositiveAmount)
    else
      var magnitude := Magnitude(amount);
      if s.balance < magnitude then Step(s, InsufficientFunds(magnitude))
      else RegisterTransaction(State(s.history, s.balance - magnitude), magnitude, description, Withdrawal, date)
  }

  /** `withdrawAllFunds`. */
  function WithdrawAllFunds(s: State, date: Time): (r: Step)
    ensures r.outcome.IsRejection() <==> r.state == s
    ensures s.balance == 0 ==> r == Step(s, NoFunds)
    ensures s.balance != 0 ==>
      && r.state.balance == 0
      && r.state.history == s.history + [Transaction(date, FullWithdrawalDescription, s.balance, 0, FullWithdrawal)]
      && r.outcome == FullyWithdrawn(s.balance)
  {
    if s.balance == 0 then Step(s, NoFunds)
    else RegisterTransaction(State(s.history, 0), s.balance, FullWithdrawalDescription, FullWithdrawal, date)
  }

  /** One iteration of `performPreTransactions`: dispatch on the seed's kind. */
  function Perform(s: State, p: PreTransaction): Step {
    match p.kind
    case Deposit => MakeDeposit(s, p.amount, p.description, p.date)
    case Withdrawal => MakeWithdrawal(s, p.amount, p.description, p.date)
    case FullWithdrawal => WithdrawAllFunds(s, p.date)
  }

  /** `performPreTransactions`: the seeds replayed in order. */
  function PerformPreTransactions(s: State, pres: seq<PreTransaction>): State
    decreases |pres|
  {
    if pres == [] then s else PerformPreTransactions(Perform(s, pres[0]).state, pres[1..])
  }

  lemma {:induction false} PerformPreTransactionsSnoc(s: State, pres: seq<PreTransaction>, p: PreTransaction)
    ensures PerformPreTransactions(s, pres + [p]) == Perform(PerformPreTransactions(s, pres), p).state
    decreases |pres|
  {
    if pres == [] {
      assert pres + [p] == [p];
      assert [p][1..] == [];
    } else {
      var all := pres + [p];
      assert all != [] && all[0] == pres[0];
      assert all[1..] == pres[1..] + [p];
      var next := Perform(s, pres[0]).state;
      assert PerformPreTransactions(s, all) == PerformPreTransactions(next, pres[1..] + [p]);
      PerformPreTransactionsSnoc(next, pres[1..], p);
    }
  }

  /** Replaying two seed lists one after the other is replaying their concatenation. */
  lemma {:induction false} PerformPreTransactionsAppend(s: State, a: seq<PreTransaction>, b: seq<PreTransaction>)
    ensures PerformPreTransactions(s, a + b) == PerformPreTransactions(PerformPreTransactions(s, a), b)
    decreases |a|
  {
    if a == [] {
      assert a + b == b;
    } else {
      var ab := a + b;
      assert ab != [] && ab[0] == a[0];
      assert ab[1..] == a[1..] + b;
      var next := Perform(s, a[0]).state;
      assert PerformPreTransactions(s, ab) == PerformPreTransactions(next, a[1..] + b);
      PerformPreTransactionsAppend(next, a[1..], b);
    }
  }

  lemma RecordedSnoc(h: seq<Transaction>, t: Transaction)
    requires Recorded(h) && ValidEntry(LastBalance(h), t)
    ensures Recorded(h + [t]) && LastBalance(h + [t]) == t.balanceAfter
  {
    assert (h + [t])[..|h|] == h;
  }

  /** The balances stamped on a valid history are never negative. */
  lemma {:induction false} RecordedNonNegative(h: seq<Transaction>)
    requires Recorded(h)
    ensures LastBalance(h) >= 0
    decreases |h|
  {
    if h != [] {
      RecordedNonNegative(h[..|h| - 1]);
    }
  }

  /** On a valid history the stamped balance is the replayed one. */
  lemma {:induction false} RecordedReplay(h: seq<Transaction>)
    requires Recorded(h)
    ensures Replay(h) == LastBalance(h)
    decreases |h|
  {
    if h != [] {
      RecordedReplay(h[..|h| - 1]);
    }
  }

  /** Every stored amount is strictly positive: the sign is carried by the kind. */
  lemma {:induction false} RecordedAmountsPositive(h: seq<Transaction>, i: nat)
    requires Recorded(h) && i < |h|
    ensures h[i].amount > 0
    decreases |h|
  {
    if i < |h| - 1 {
      RecordedAmountsPositive(h[..|h| - 1], i);
    }
  }

  /**
   * Conservation: on a valid history the balance is the deposit total less the total of
   * all withdrawals, because a full withdrawal takes exactly the balance it finds.
   */
  lemma {:induction false} RecordedTotals(h: seq<Transaction>)
    requires Recorded(h)
    ensures LastBalance(h)
         == Calculator.SumOfTransactionsOfType(h, Deposit) - Calculator.SumOfTransactionsOfType(h, Withdrawal)
    decreases |h|
  {
    if h != [] {
      var prefix := h[..|h| - 1];
      var t := h[|h| - 1];
      assert h == prefix + [t];
      RecordedTotals(prefix);
      Calculator.SumOfTypeSnoc(prefix, t, Deposit);
      Calculator.SumOfTypeSnoc(prefix, t, Withdrawal);
    }
  }

  /** What the invariant gives: a non-negative balance equal to the replay and to the totals' difference. */
  lemma ConsistentBalance(s: State)
    requires Consistent(s)
    ensures s.balance >= 0
    ensures s.balance == Replay(s.history)
    ensures s.balance
         == Calculator.SumOfTransactionsOfType(s.history, Deposit)
          - Calculator.SumOfTransactionsOfType(s.history, Withdrawal)
  {
    RecordedNonNegative(s.history);
    RecordedReplay(s.history);
    RecordedTotals(s.history);
  }

  lemma EmptyConsistent()
    ensures Consistent(Empty)
  {
  }

  lemma MakeDepositKeepsConsistent(s: State, amount: Amount, description: string, date: Time)
    requires Consistent(s)
    ensures Consistent(MakeDeposit(s, amount, description, date).state)
  {
    if amount > 0 {
      RecordedSnoc(s.history, Transaction(date, description, amount, s.balance + amount, Deposit));
    }
  }

  lemma MakeWithdrawalKeepsConsistent(s: State, amount: Amount, description: string, date: Time)
    requires Consistent(s)
    ensures Consistent(MakeWithdrawal(s, amount, description, date).state)
  {
    var m := Magnitude(amount);
    if amount != 0 && m <= s.balance {
      RecordedSnoc(s.history, Transaction(date, description, m, s.balance - m, Withdrawal));
    }
  }

  lemma WithdrawAllFundsKeepsConsistent(s: State, date: Time)
    requires Consistent(s)
    ensures Consistent(WithdrawAllFunds(s, date).state)
  {
    if s.balance != 0 {
      RecordedNonNegative(s.history);
      RecordedSnoc(s.history, Transaction(date, FullWithdrawalDescription, s.balance, 0, FullWithdrawal));
    }
  }

  lemma PerformKeepsConsistent(s: State, p: PreTransaction)
    requires Consistent(s)
    ensures Consistent(Perform(s, p).state)
  {
    match p.kind
    case Deposit => MakeDepositKeepsConsistent(s, p.amount, p.description, p.date);
    case Withdrawal => MakeWithdrawalKeepsConsistent(s, p.amount, p.description, p.date);
    case FullWithdrawal => WithdrawAllFundsKeepsConsistent(s, p.date);
  }

  /** Seeded construction keeps the invariant, whatever the seeds. */
  lemma {:induction false} PerformPreTransactionsKeepsConsistent(s: State, pres: seq<PreTransaction>)
    requires Consistent(s)
    ensures Consistent(PerformPreTransactions(s, pres))
    decreases |pres|
  {
    if pres != [] {
      PerformKeepsConsistent(s, pres[0]);
      PerformPreTransactionsKeepsConsistent(Perform(s, pres[0]).state, pres[1..]);
    }
  }

  /** The history only grows, and what was recorded stays as it was. */
  lemma {:induction false} PerformPreTransactionsExtendsHistory(s: State, pres: seq<PreTransaction>)
    ensures var r := PerformPreTransactions(s, pres);
      |s.history| <= |r.history| <= |s.history| + |pres| && r.history[..|s.history|] == s.history
    decreases |pres|
  {
    if pres != [] {
      var next := Perform(s, pres[0]).state;
      PerformPreTransactionsExtendsHistory(next, pres[1..]);
      var r := PerformPreTransactions(next, pres[1..]);
      assert next.history[..|s.history|] == s.history;
      assert r.history[..|s.history|] == r.history[..|next.history|][..|s.history|];
    }
  }
}

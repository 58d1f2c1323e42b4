/**
 * `BigDecimal` as an unscaled integer and a scale, with the two ways the
 * account compares an amount against zero: `compareTo`, which looks at the
 * number only, and `equals`, which also compares the scale.  The zero guards
 * of `makeWithdrawal` and `withdrawAllFunds` use `equals`; the rest of the
 * model works on exact numbers, which is what `compareTo` sees.
 */
module Decimals {
  import opened Wrappers

  /** The number `unscaled / 10^scale`. */
  datatype Decimal = Decimal(unscaled: int, scale: nat)

  /** `BigDecimal.ZERO`. */
  const Zero: Decimal := Decimal(0, 0)

  function Pow10(n: nat): (p: nat)
    ensures p >= 1
  {
    if n == 0 then 1 else 10 * Pow10(n - 1)
  }

  function Max(a: nat, b: nat): nat {
    if a < b then b else a
  }

  /** The unscaled value of `d` written with `s` fractional digits. */
  function Aligned(d: Decimal, s: nat): int
    requires d.scale <= s
  {
    d.unscaled * Pow10(s - d.scale)
  }

  /** `compareTo`: the sign of `a - b`, whatever the scales. */
  function CompareTo(a: Decimal, b: Decimal): (r: int)
    ensures -1 <= r <= 1
  {
    var s := Max(a.scale, b.scale);
    var x, y := Aligned(a, s), Aligned(b, s);
    if x < y then -1 else if x == y then 0 else 1
  }

  /** `equals`: the same unscaled value and the same scale. */
  predicate Equals(a: Decimal, b: Decimal) {
    a.unscaled == b.unscaled && a.scale == b.scale
  }

  /** `negate`. */
  function Negate(d: Decimal): Decimal {
    Decimal(-d.unscaled, d.scale)
  }

  /** `subtract`: the result carries the larger of the two scales. */
  function Subtract(a: Decimal, b: Decimal): (r: Decimal)
    ensures r.scale == Max(a.scale, b.scale)
  {
    var s := Max(a.scale, b.scale);
    Decimal(Aligned(a, s) - Aligned(b, s), s)
  }

  /** Comparing with zero is the sign of the unscaled value; equality with zero also needs scale 0. */
  lemma CompareWithZero(d: Decimal)
    ensures CompareTo(d, Zero) == (if d.unscaled < 0 then -1 else if d.unscaled == 0 then 0 else 1)
    ensures Equals(d, Zero) <==> d.unscaled == 0 && d.scale == 0
  {
    assert Pow10(0) == 1;
    assert Aligned(d, d.scale) == d.unscaled;
  }

  /** Subtracting an amount from itself gives zero at that amount's scale. */
  lemma SubtractSelf(d: Decimal)
    ensures Subtract(d, d) == Decimal(0, d.scale)
  {
  }

  /** `withdrawAllFunds` as written: the whole balance is recorded unless it `equals` zero. */
  function FullWithdrawalAsWritten(balance: Decimal): (recorded: Option<Decimal>)
    ensures recorded.Some? <==> !(balance.unscaled == 0 && balance.scale == 0)
    ensures recorded.Some? ==> recorded.value == balance
  {
    CompareWithZero(balance);
    if Equals(balance, Zero) then None else Some(balance)
  }

  /** `withdrawAllFunds` with the numeric test `makeDeposit` uses: a zero balance of any scale is refused. */
  function FullWithdrawal(balance: Decimal): (recorded: Option<Decimal>)
    ensures recorded.Some? <==> balance.unscaled != 0
    ensures recorded.Some? ==> recorded.value == balance && CompareTo(recorded.value, Zero) != 0
  {
    CompareWithZero(balance);
    if CompareTo(balance, Zero) == 0 then None else Some(balance)
  }

  /** `makeWithdrawal` as written: the amount recorded, if any (zero tested with `equals`). */
  function WithdrawalAsWritten(amount: Decimal, balance: Decimal): (recorded: Option<Decimal>)
    ensures amount == Zero ==> recorded == None
    ensures recorded.Some? ==> recorded.value.scale == amount.scale && recorded.value.unscaled >= 0
  {
    CompareWithZero(amount);
    if Equals(amount, Zero) then None
    else
      var magnitude := if CompareTo(amount, Zero) < 0 then Negate(amount) else amount;
      if CompareTo(balance, magnitude) < 0 then None else Some(magnitude)
  }

  /** `makeWithdrawal` with the numeric zero test: whatever is recorded is strictly positive. */
  function Withdrawal(amount: Decimal, balance: Decimal): (recorded: Option<Decimal>)
    ensures amount.unscaled == 0 ==> recorded == None
    ensures recorded.Some? ==>
      && recorded.value.scale == amount.scale
      && (recorded.value == amount || recorded.value == Negate(amount))
      && CompareTo(recorded.value, Zero) == 1
  {
    CompareWithZero(amount);
    CompareWithZero(Negate(amount));
    if CompareTo(amount, Zero) == 0 then None
    else
      var magnitude := if CompareTo(amount, Zero) < 0 then Negate(amount) else amount;
      if CompareTo(balance, magnitude) < 0 then None else Some(magnitude)
  }

  /**
   * Depositing 5.00 and withdrawing 5.00 leaves a balance of 0.00, which is numerically zero
   * but does not `equals` zero: `withdrawAllFunds` as written then records a full withdrawal
   * of 0.00, where the numeric test refuses it.
   */
  lemma ScaledZeroBalanceIsWithdrawn()
    ensures var balance := Subtract(Decimal(500, 2), Decimal(500, 2));
      && balance == Decimal(0, 2)
      && CompareTo(balance, Zero) == 0
      && FullWithdrawalAsWritten(balance) == Some(Decimal(0, 2))
      && FullWithdrawal(balance) == None
  {
    SubtractSelf(Decimal(500, 2));
    CompareWithZero(Decimal(0, 2));
  }

  /** A withdrawal of 0.00 passes the `equals` guard and is recorded; the numeric test refuses it. */
  lemma ScaledZeroWithdrawalIsRecorded(balance: Decimal)
    requires balance.unscaled >= 0
    ensures WithdrawalAsWritten(Decimal(0, 2), balance) == Some(Decimal(0, 2))
    ensures Withdrawal(Decimal(0, 2), balance) == None
  {
    CompareWithZero(Decimal(0, 2));
    assert Pow10(0) == 1;
    assert Aligned(balance, balance.scale) == balance.unscaled;
    assert Max(balance.scale, 2) >= balance.scale;
    assert Aligned(Decimal(0, 2), Max(balance.scale, 2)) == 0;
    assert Aligned(balance, Max(balance.scale, 2)) >= 0;
  }
}

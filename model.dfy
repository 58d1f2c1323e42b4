/**
 * The value types of the account: transaction kinds, recorded transactions,
 * seed transactions and the totals handed to the renderer, together with the
 * integer encoding of amounts, calendar dates and instants.
 */
module Model {
  import opened Wrappers

  /** An exact amount of money, in the currency's smallest unit. */
  type Amount = int

  /** A calendar date, as its number of days since 1970-01-01. */
  type Day = int

  /** An instant, as whole minutes since 1970-01-01 00:00. */
  type Time = int

  const MinutesPerDay: int := 1440

  datatype TransactionType = Deposit | Withdrawal | FullWithdrawal

  /** A completed movement, with the balance right after it. */
  datatype Transaction = Transaction(
    date: Time,
    description: string,
    amount: Amount,
    balanceAfter: Amount,
    kind: TransactionType)

  /** Input used to replay a history into a fresh account. */
  datatype PreTransaction = PreTransaction(
    date: Time,
    description: string,
    amount: Amount,
    kind: TransactionType)

  /** The three optional totals of a report. */
  datatype SumsOfTransactions = SumsOfTransactions(
    sumOfDeposits: Option<Amount>,
    sumOfWithdrawals: Option<Amount>,
    balance: Option<Amount>)

  /** The instant at 00:00 on day `d` (the date at `LocalTime.of(0, 0)`). */
  function StartOfDay(d: Day): Time {
    d * MinutesPerDay
  }

  /** The date an instant falls on. */
  function DayOf(t: Time): (d: Day)
    ensures StartOfDay(d) <= t < StartOfDay(d + 1)
  {
    t / MinutesPerDay
  }

  /** Midnight falls on its own day, and later days start later. */
  lemma StartOfDayOrder(d: Day, e: Day)
    ensures DayOf(StartOfDay(d)) == d
    ensures d < e <==> StartOfDay(d) < StartOfDay(e)
  {
  }

  /** Days since 1970-01-01 of a proleptic Gregorian date (valid for every year). */
  function EpochDay(year: int, month: int, day: int): Day
    requires 1 <= month <= 12 && 1 <= day <= 31
  {
    var y := if month <= 2 then year - 1 else year;
    var era := y / 400;
    var yearOfEra := y - era * 400;
    var monthFromMarch := if month > 2 then month - 3 else month + 9;
    var dayOfYear := (153 * monthFromMarch + 2) / 5 + day - 1;
    var dayOfEra := yearOfEra * 365 + yearOfEra / 4 - yearOfEra / 100 + dayOfYear;
    era * 146097 + dayOfEra - 719468
  }

  /** The instant `LocalDateTime.of(year, month, day, hour, minute)`. */
  function DateTime(year: int, month: int, day: int, hour: int, minute: int): Time
    requires 1 <= month <= 12 && 1 <= day <= 31
    requires 0 <= hour < 24 && 0 <= minute < 60
  {
    StartOfDay(EpochDay(year, month, day)) + hour * 60 + minute
  }
}

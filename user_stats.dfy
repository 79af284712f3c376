/**
  UserStats, the persisted record of counters and banked minutes, and the
  minute ledger the views keep in it: earning minutes from reps, spending them
  on an unlock, and the once-a-day 15-minute "emergency" debt.
 */
module Stats {
  import opened Wrappers

  /** A point in time, in seconds. */
  type Date = int

  /** The user's calendar: the day a date falls on (`Calendar.current.isDateInToday`). */
  type Calendar = Date -> int

  /** The minutes granted by one emergency debt. */
  const DebtGrant := 15.0

  /** The ledger part of UserStats. */
  datatype Ledger = Ledger(banked: real, debt: real, lastDebtDate: Option<Date>)

  /** `canTakeDebt`: no debt taken yet, or the last one was not taken today. */
  predicate DebtAllowed(lastDebtDate: Option<Date>, now: Date, day: Calendar)
  {
    lastDebtDate.None? || day(lastDebtDate.value) != day(now)
  }

  /** `handleDebtRequest`'s effect on the ledger. */
  function GrantDebt(l: Ledger, now: Date, day: Calendar): Ledger
  {
    if DebtAllowed(l.lastDebtDate, now, day) then
      Ledger(l.banked + DebtGrant, l.debt + DebtGrant, Some(now))
    else l
  }

  /** A grant adds 15 to both the balance and the debt and stamps today; a refused one changes nothing. */
  lemma GrantDebtEffect(l: Ledger, now: Date, day: Calendar)
    ensures DebtAllowed(l.lastDebtDate, now, day) ==>
              GrantDebt(l, now, day).banked == l.banked + 15.0 &&
              GrantDebt(l, now, day).debt == l.debt + 15.0 &&
              GrantDebt(l, now, day).lastDebtDate == Some(now)
    ensures !DebtAllowed(l.lastDebtDate, now, day) ==> GrantDebt(l, now, day) == l
  {
  }

  /** Two requests on the same day grant at most once: after any request, debt is refused for the rest of that day. */
  lemma OneDebtPerDay(l: Ledger, t1: Date, t2: Date, day: Calendar)
    requires day(t1) == day(t2)
    ensures GrantDebt(GrantDebt(l, t1, day), t2, day) == GrantDebt(l, t1, day)
    ensures !DebtAllowed(GrantDebt(l, t1, day).lastDebtDate, t2, day)
  {
  }

  /**
    Spending `amount` minutes: refused (None) when the balance is short, never
    clamped; otherwise the balance drops by exactly `amount`.
   */
  function Spend(l: Ledger, amount: real): (r: Option<Ledger>)
    ensures r.Some? <==> l.banked >= amount
    ensures r.Some? ==> r.value == l.(banked := l.banked - amount)
  {
    if l.banked >= amount then Some(l.(banked := l.banked - amount)) else None
  }

  /** A non-negative balance stays non-negative across a spend. */
  lemma SpendKeepsBalanceNonNegative(l: Ledger, amount: real)
    requires l.banked >= 0.0
    ensures Spend(l, amount).Some? ==> Spend(l, amount).value.banked >= 0.0
  {
  }

  /** `(Double(count) / Double(rate)) * 5.0`: minutes earned by a session's reps. */
  function Earned(count: int, rate: int): real
    requires rate != 0
  {
    (count as real / rate as real) * 5.0
  }

  /** Zero reps earn nothing; with a positive rate earnings are never negative, and positive for any rep. */
  lemma EarnedBounds(count: int, rate: int)
    requires rate != 0
    ensures count == 0 ==> Earned(count, rate) == 0.0
    ensures rate > 0 && count >= 0 ==> Earned(count, rate) >= 0.0
    ensures rate > 0 && count > 0 ==> Earned(count, rate) > 0.0
    ensures Earned(count, rate) * rate as real == 5.0 * count as real
  {
  }

  class UserStats {
    var squatsBanked: int
    var totalSquats: int
    var streakDays: int
    var lastSquatDate: Option<Date>
    var bankedMinutes: real
    var exchangeRateSquats: int
    var exchangeRatePushups: int
    var debtMinutes: real
    var lastDebtDate: Option<Date>

    constructor ()
      ensures IsFresh()
    {
      squatsBanked, totalSquats, streakDays, lastSquatDate := 0, 0, 0, None;
      bankedMinutes, exchangeRateSquats, exchangeRatePushups := 0.0, 10, 10;
      debtMinutes, lastDebtDate := 0.0, None;
    }

    /** The defaults of `UserStats()`. */
    predicate IsFresh()
      reads this
    {
      && squatsBanked == 0 && totalSquats == 0 && streakDays == 0 && lastSquatDate == None
      && bankedMinutes == 0.0 && exchangeRateSquats == 10 && exchangeRatePushups == 10
      && debtMinutes == 0.0 && lastDebtDate == None
    }

    function CurrentLedger(): Ledger
      reads this
    {
      Ledger(bankedMinutes, debtMinutes, lastDebtDate)
    }

    /** The rep counters and the streak are as they were. */
    twostate predicate ProgressUnchanged()
      reads this
    {
      && squatsBanked == old(squatsBanked) && totalSquats == old(totalSquats)
      && streakDays == old(streakDays) && lastSquatDate == old(lastSquatDate)
    }

    /** Fields outside the ledger are as they were. */
    twostate predicate CountersUnchanged()
      reads this
    {
      && ProgressUnchanged()
      && exchangeRateSquats == old(exchangeRateSquats) && exchangeRatePushups == old(exchangeRatePushups)
    }

    /** Only the rep counters (`totalSquats`, `squatsBanked`) may have moved. */
    twostate predicate LedgerAndSettingsUnchanged()
      reads this
    {
      && CurrentLedger() == old(CurrentLedger())
      && streakDays == old(streakDays) && lastSquatDate == old(lastSquatDate)
      && exchangeRateSquats == old(exchangeRateSquats) && exchangeRatePushups == old(exchangeRatePushups)
    }

    /** Write a new ledger into the record. */
    method SetLedger(l: Ledger)
      modifies this
      ensures CurrentLedger() == l && CountersUnchanged()
    {
      bankedMinutes, debtMinutes, lastDebtDate := l.banked, l.debt, l.lastDebtDate;
    }
  }
}

/**
  SettingsView: the "15 Min Emergency" toggle (a debt grant without an
  unlock) and the two exchange-rate sliders with their minute labels.
 */
module Settings {
  import opened Wrappers
  import opened Stats

  /** A discrete slider's grid: a whole number in `lower...upper` reached from `lower` in steps of `step`. */
  predicate OnGrid(value: real, lower: int, upper: int, step: int)
  {
    && value.Floor as real == value
    && lower as real <= value <= upper as real
    && step > 0 && (value.Floor - lower) % step == 0
  }

  const SquatRateLower := 60
  const SquatRateUpper := 600
  const PushupRateLower := 60
  const PushupRateUpper := 300
  const RateStep := 60

  /** `rate / 60` in Swift's `Int` arithmetic, which truncates toward zero. */
  function RateLabel(rate: int): (minutes: int)
    ensures rate >= 0 ==> 0 <= minutes * 60 <= rate < (minutes + 1) * 60
    ensures rate < 0 ==> (minutes - 1) * 60 < rate <= minutes * 60 <= 0
  {
    if rate >= 0 then rate / 60 else -((-rate) / 60)
  }

  /** On the squat grid the label runs over whole minutes 1 to 10, on the push-up grid 1 to 5. */
  lemma GridLabels(value: real)
    ensures OnGrid(value, SquatRateLower, SquatRateUpper, RateStep) ==>
              RateLabel(value.Floor) * 60 == value.Floor && 1 <= RateLabel(value.Floor) <= 10
    ensures OnGrid(value, PushupRateLower, PushupRateUpper, RateStep) ==>
              RateLabel(value.Floor) * 60 == value.Floor && 1 <= RateLabel(value.Floor) <= 5
  {
  }

  /** The record's default rate of 10 sits off the grid and is labelled 0 minutes. */
  lemma DefaultRateLabel()
    ensures RateLabel(10) == 0
    ensures !OnGrid(10.0, SquatRateLower, SquatRateUpper, RateStep)
  {
  }

  class SettingsView {
    const userStats: UserStats

    constructor (userStats: UserStats)
      ensures this.userStats == userStats
    {
      this.userStats := userStats;
    }

    /** `canTakeDebt`: true with no earlier debt, otherwise iff the last one was not taken today. */
    function CanTakeDebt(now: Date, day: Calendar): (allowed: bool)
      reads userStats
      ensures allowed <==> userStats.lastDebtDate.None? || day(userStats.lastDebtDate.value) != day(now)
    {
      DebtAllowed(userStats.CurrentLedger().lastDebtDate, now, day)
    }

    /** The toggle's getter, `!canTakeDebt()`. */
    function ToggleIsOn(now: Date, day: Calendar): (on: bool)
      reads userStats
      ensures on <==> userStats.lastDebtDate.Some? && day(userStats.lastDebtDate.value) == day(now)
    {
      !CanTakeDebt(now, day)
    }

    /** `handleDebtRequest`: the same grant as on the home screen, without any unlock. */
    method HandleDebtRequest(now: Date, day: Calendar)
      modifies userStats
      ensures userStats.CurrentLedger() == GrantDebt(old(userStats.CurrentLedger()), now, day)
      ensures userStats.CountersUnchanged()
    {
      if CanTakeDebt(now, day) {
        userStats.lastDebtDate := Some(now);
        userStats.debtMinutes := userStats.debtMinutes + DebtGrant;
        userStats.bankedMinutes := userStats.bankedMinutes + DebtGrant;
      }
    }

    /**
      The toggle's setter: switching on grants the debt when it is allowed;
      switching off never does anything. Once granted, the toggle reads on.
     */
    method ToggleSet(newValue: bool, now: Date, day: Calendar)
      modifies userStats
      ensures userStats.CurrentLedger() == if newValue then GrantDebt(old(userStats.CurrentLedger()), now, day) else old(userStats.CurrentLedger())
      ensures userStats.CountersUnchanged()
      ensures newValue ==> ToggleIsOn(now, day)
    {
      if newValue && CanTakeDebt(now, day) {
        HandleDebtRequest(now, day);
      }
    }

    /** The squat slider's setter, `Int($0)` of a grid value. */
    method SetSquatRate(value: real)
      requires OnGrid(value, SquatRateLower, SquatRateUpper, RateStep)
      modifies userStats
      ensures userStats.exchangeRateSquats as real == value
      ensures 60 <= userStats.exchangeRateSquats <= 600 && userStats.exchangeRateSquats % 60 == 0
      ensures userStats.exchangeRatePushups == old(userStats.exchangeRatePushups)
      ensures userStats.CurrentLedger() == old(userStats.CurrentLedger())
      ensures userStats.ProgressUnchanged()
    {
      userStats.exchangeRateSquats := value.Floor;
    }

    /** The push-up slider's setter, `Int($0)` of a grid value. */
    method SetPushupRate(value: real)
      requires OnGrid(value, PushupRateLower, PushupRateUpper, RateStep)
      modifies userStats
      ensures userStats.exchangeRatePushups as real == value
      ensures 60 <= userStats.exchangeRatePushups <= 300 && userStats.exchangeRatePushups % 60 == 0
      ensures userStats.exchangeRateSquats == old(userStats.exchangeRateSquats)
      ensures userStats.CurrentLedger() == old(userStats.CurrentLedger())
      ensures userStats.ProgressUnchanged()
    {
      userStats.exchangeRatePushups := value.Floor;
    }
  }
}

/**
  RedeemView: spending banked minutes on the app whose shield was tapped
  (or on everything), chosen with a whole-minute slider.
 */
module Redeem {
  import opened Wrappers
  import opened SharedModel
  import opened Stats

  /** The view's default amount. */
  const DefaultMinutes := 15.0

  /**
    A call to `unblockApps(for:token:)`, which the manager this model covers
    does not define: the call is recorded, not interpreted.
   */
  datatype UnblockAppsCall = UnblockAppsCall(duration: real, token: Option<AppToken>)

  /** The slider's upper end, `max(1, bankedMinutes)`: never below its lower end 1, never below the balance. */
  function SliderUpper(banked: real): (upper: real)
    ensures upper >= 1.0 && upper >= banked
    ensures upper == 1.0 || upper == banked
  {
    if banked > 1.0 then banked else 1.0
  }

  /** A slider position: a whole number of minutes from 1 up to the upper end. */
  predicate OnSlider(value: real, banked: real)
  {
    value.Floor as real == value && 1.0 <= value <= SliderUpper(banked)
  }

  /** Any position the slider offers with at least one banked minute can be redeemed in full. */
  lemma SliderStaysAffordable(value: real, banked: real)
    requires banked >= 1.0 && OnSlider(value, banked)
    ensures Spend(Ledger(banked, 0.0, None), value).Some?
  {
  }

  class RedeemView {
    const applicationToken: Option<AppToken>
    var minutesToRedeem: real
    var dismissed: bool

    constructor (applicationToken: Option<AppToken>)
      ensures this.applicationToken == applicationToken
      ensures minutesToRedeem == DefaultMinutes && !dismissed
    {
      this.applicationToken := applicationToken;
      minutesToRedeem := DefaultMinutes;
      dismissed := false;
    }

    /** Moving the slider. */
    method Slide(value: real, banked: real)
      requires OnSlider(value, banked)
      modifies this
      ensures minutesToRedeem == value && dismissed == old(dismissed)
    {
      minutesToRedeem := value;
    }

    /**
      `redeemMinutes`: with too few banked minutes nothing happens; otherwise
      the balance drops by exactly the chosen amount, the apps are unblocked
      for that many minutes (the tapped app, or all when there is none) and
      the view is dismissed.
     */
    method RedeemMinutes(stats: UserStats) returns (call: Option<UnblockAppsCall>)
      modifies stats, this
      ensures minutesToRedeem == old(minutesToRedeem)
      ensures stats.CountersUnchanged()
      ensures match Spend(old(stats.CurrentLedger()), minutesToRedeem)
              case None =>
                call == None && stats.CurrentLedger() == old(stats.CurrentLedger()) && dismissed == old(dismissed)
              case Some(after) =>
                && call == Some(UnblockAppsCall(minutesToRedeem * 60.0, applicationToken))
                && stats.CurrentLedger() == after && dismissed
    {
      if stats.bankedMinutes < minutesToRedeem {
        return None;
      }
      stats.bankedMinutes := stats.bankedMinutes - minutesToRedeem;
      call := Some(UnblockAppsCall(minutesToRedeem * 60.0, applicationToken));
      dismissed := true;
    }
  }
}

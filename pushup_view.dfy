/** PushupView: turning the session's push-ups into banked minutes when the user finishes. */
module PushupScreen {
  import opened Stats
  import opened Pushups

  class PushupView {
    /**
      The live query's `userStats.first`: null while the store holds no
      record, and the manager's record once `onAppear` has fetched or inserted it.
     */
    var stats: UserStats?
    const manager: PushupManager
    var dismissed: bool

    constructor (stats: UserStats?, manager: PushupManager)
      ensures this.stats == stats && this.manager == manager && !dismissed
    {
      this.stats := stats;
      this.manager := manager;
      dismissed := false;
    }

    /**
      `onAppear`: the manager fetches the stored record, or inserts a fresh one
      when there is none, and the query then yields that same record.
     */
    method Appear()
      modifies this, manager
      ensures stats != null && stats == manager.stats
      ensures old(stats) != null ==> stats == old(stats)
      ensures old(stats) == null ==> fresh(stats) && stats.IsFresh()
      ensures manager.Snapshot() == old(manager.Snapshot())
      ensures dismissed == old(dismissed)
    {
      manager.SetContext(stats);
      stats := manager.stats;
    }

    /**
      `finishSession`: adds `pushupCount / exchangeRatePushups * 5` minutes to
      the balance when a record exists, and dismisses in every case.
     */
    method FinishSession()
      requires stats != null ==> stats.exchangeRatePushups != 0
      modifies this, stats
      ensures stats == old(stats) && dismissed
      ensures stats != null ==>
                && stats.bankedMinutes == old(stats.bankedMinutes) + Earned(manager.pushupCount, old(stats.exchangeRatePushups))
                && stats.debtMinutes == old(stats.debtMinutes) && stats.lastDebtDate == old(stats.lastDebtDate)
                && stats.CountersUnchanged()
      ensures stats != null && manager.pushupCount >= 0 && stats.exchangeRatePushups > 0 ==>
                stats.bankedMinutes >= old(stats.bankedMinutes)
    {
      if stats != null {
        var rate := stats.exchangeRatePushups as real;
        var earned := (manager.pushupCount as real / rate) * 5.0;
        stats.bankedMinutes := stats.bankedMinutes + earned;
        EarnedBounds(manager.pushupCount, stats.exchangeRatePushups);
      }
      dismissed := true;
    }
  }
}

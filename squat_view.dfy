/** SquatView: turning the session's squats into banked minutes when the user finishes. */
module SquatScreen {
  import opened Stats
  import opened Squats

  class SquatView {
    /**
      The live query's `userStats.first`: null while the store holds no
      record, and the manager's record once `onAppear` has fetched or inserted it.
     */
    var stats: UserStats?
    const manager: SquatManager
    var dismissed: bool

    constructor (stats: UserStats?, manager: SquatManager)
      ensures this.stats == stats && this.manager == manager && !dismissed
    {
      this.stats := stats;
      this.manager := manager;
      dismissed := false;
    }

    /**
      `onAppear`: the manager fetches the stored record, or inserts a fresh one
      when there is none, and the query then yields that same record.
     */
    method Appear()
      modifies this, manager
      ensures stats != null && stats == manager.stats
      ensures old(stats) != null ==> stats == old(stats)
      ensures old(stats) == null ==> fresh(stats) && stats.IsFresh()
      ensures manager.Snapshot() == old(manager.Snapshot())
      ensures dismissed == old(dismissed)
    {
      manager.SetContext(stats);
      stats := manager.stats;
    }

    /**
      `finishSession`: adds `squatCount / exchangeRateSquats * 5` minutes to
      the balance when a record exists, and dismisses in every case.
     */
    method FinishSession()
      requires stats != null ==> stats.exchangeRateSquats != 0
      modifies this, stats
      ensures stats == old(stats) && dismissed
      ensures stats != null ==>
                && stats.bankedMinutes == old(stats.bankedMinutes) + Earned(manager.squatCount, old(stats.exchangeRateSquats))
                && stats.debtMinutes == old(stats.debtMinutes) && stats.lastDebtDate == old(stats.lastDebtDate)
                && stats.CountersUnchanged()
      ensures stats != null && manager.squatCount >= 0 && stats.exchangeRateSquats > 0 ==>
                stats.bankedMinutes >= old(stats.bankedMinutes)
    {
      if stats != null {
        var rate := stats.exchangeRateSquats as real;
        var earned := (manager.squatCount as real / rate) * 5.0;
        stats.bankedMinutes := stats.bankedMinutes + earned;
        EarnedBounds(manager.squatCount, stats.exchangeRateSquats);
      }
      dismissed := true;
    }
  }
}

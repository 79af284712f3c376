/**
  BlockingManager: keeps the user's selection, saves it to the shared defaults,
  and drives the shield store. A session lifts the shield for one application
  (or for everything), schedules the "sessionTimer" interval with the OS and
  arms an in-app backup timer that puts the full shield back.
 */
module Blocking {
  import opened Wrappers
  import opened SharedModel

  /** `unblockTemporarily`'s default duration, in seconds. */
  const DefaultUnblockSeconds := 900.0

  /** `Int(ceil(duration / 60.0))`: whole minutes, rounding any part-minute up. */
  function CeilMinutes(duration: real): (minutes: int)
    ensures (minutes as real) * 60.0 >= duration
    ensures ((minutes - 1) as real) * 60.0 < duration
  {
    -((-duration / 60.0).Floor)
  }

  /** A whole number of minutes, passed in seconds, comes back unchanged. */
  lemma CeilMinutesOfWhole(minutes: int)
    ensures CeilMinutes((minutes * 60) as real) == minutes
  {
    var m := CeilMinutes((minutes * 60) as real);
    assert (m as real) * 60.0 >= (minutes * 60) as real;
    assert ((m - 1) as real) * 60.0 < (minutes * 60) as real;
  }

  lemma DefaultIsFifteenMinutes()
    ensures CeilMinutes(DefaultUnblockSeconds) == 15
  {
    CeilMinutesOfWhole(15);
  }

  /**
    The shield `startSession` applies. With a token: every selected application
    but the token (nil when none is left), the selected categories (nil when
    there are none). Without a token: no application or category shield. Web
    domains are cleared in both cases.
   */
  function SessionShield(selection: Selection, token: Option<AppToken>): Shield
  {
    match token
    case Some(t) =>
      var apps := selection.apps - {t};
      Shield(if apps == {} then None else Some(apps),
             if selection.categories == {} then None else Some(selection.categories),
             None)
    case None => Shield(None, None, None)
  }

  /** A per-app session exempts exactly its token: every other selected app stays shielded. */
  lemma SessionExemptsOnlyToken(selection: Selection, t: AppToken)
    ensures forall a :: AppShielded(SessionShield(selection, Some(t)), a) <==> a in selection.apps && a != t
    ensures forall c :: CategoryShielded(SessionShield(selection, Some(t)), c) <==> c in selection.categories
    ensures SessionShield(selection, Some(t)).webDomains == None
  {
    forall a | a in selection.apps && a != t
      ensures AppShielded(SessionShield(selection, Some(t)), a)
    {
      assert a in selection.apps - {t};
    }
  }

  /** A global session shields nothing. */
  lemma GlobalSessionShieldsNothing(selection: Selection)
    ensures forall a :: !AppShielded(SessionShield(selection, None), a)
    ensures forall c :: !CategoryShielded(SessionShield(selection, None), c)
    ensures SessionShield(selection, None).webDomains == None
  {
  }

  /** The schedule `startSession` registers: from 5 s before now until `minutes` after now, repeating. */
  function SessionSchedule(now: int, minutes: int): Schedule
  {
    Schedule(now - 5, now + minutes * 60, true)
  }

  /**
    Starting the interval 5 s in the past makes the system see it as already
    active when it is registered, and the interval ends exactly at the deadline
    of the backup timer armed beside it.
   */
  lemma SessionActiveNow(now: int, minutes: int)
    requires minutes >= 0
    ensures SessionSchedule(now, minutes).intervalStart < now <= SessionSchedule(now, minutes).intervalEnd
    ensures SessionSchedule(now, minutes).intervalEnd == now + minutes * 60
    ensures SessionSchedule(now, minutes).repeats
  {
  }

  class BlockingManager {
    var selection: Selection
    const store: ShieldStore
    const center: ActivityCenter
    const defaults: SharedDefaults
    /** Deadlines (seconds) of backup re-lock timers armed by `startSession` and not yet fired. */
    var backupDeadlines: multiset<int>

    /** `init`: load the saved selection. */
    constructor (store: ShieldStore, center: ActivityCenter, defaults: SharedDefaults)
      ensures this.store == store && this.center == center && this.defaults == defaults
      ensures selection == defaults.AppSelection()
      ensures backupDeadlines == multiset{}
    {
      this.store := store;
      this.center := center;
      this.defaults := defaults;
      selection := defaults.AppSelection();
      backupDeadlines := multiset{};
    }

    /** Save the selection, then shield exactly it. */
    method UpdateShield()
      modifies store, defaults
      ensures defaults.stored == Encoded(selection)
      ensures store.shield == Locked(old(store.shield), selection)
    {
      defaults.SaveAppSelection(selection);
      store.shield := Locked(store.shield, selection);
    }

    method StartSession(minutes: int, token: Option<AppToken>, now: int, accepted: bool)
      modifies this, store, center, defaults
      ensures SessionStarted(this, minutes, token, now, accepted)
    {
      defaults.SaveAppSelection(selection);
      store.shield := SessionShield(selection, token);
      center.StopMonitoring({SessionTimer});
      var _ := center.StartMonitoring(SessionTimer, SessionSchedule(now, minutes), accepted);
      backupDeadlines := backupDeadlines + multiset{now + minutes * 60};
    }

    /** The `asyncAfter` backup timer: put back the full shield from the saved selection. */
    method BackupTimerFired(deadline: int)
      requires deadline in backupDeadlines
      modifies this, store
      ensures selection == old(selection)
      ensures backupDeadlines == old(backupDeadlines) - multiset{deadline}
      ensures store.shield == Locked(old(store.shield), defaults.AppSelection())
    {
      var saved := defaults.AppSelection();
      store.shield := Locked(store.shield, saved);
      backupDeadlines := backupDeadlines - multiset{deadline};
    }

    method StopSession()
      modifies store, center, defaults
      ensures center.monitored == old(center.monitored) - {SessionTimer}
      ensures defaults.stored == Encoded(selection)
      ensures store.shield == Locked(old(store.shield), selection)
    {
      center.StopMonitoring({SessionTimer});
      UpdateShield();
    }

    method UnblockTemporarily(duration: real, token: Option<AppToken>, now: int, accepted: bool)
      modifies this, store, center, defaults
      ensures SessionStarted(this, CeilMinutes(duration), token, now, accepted)
    {
      var minutes := CeilMinutes(duration);
      StartSession(minutes, token, now, accepted);
    }
  }

  /**
    What `startSession(minutes, token)` leaves behind: the selection itself
    unchanged and saved in full, the session shield in the store, the
    "sessionTimer" schedule replaced (or dropped when the OS rejects it) and one
    more backup timer armed.
   */
  twostate predicate SessionStarted(bm: BlockingManager, minutes: int, token: Option<AppToken>, now: int, accepted: bool)
    reads bm, bm.store, bm.center, bm.defaults
  {
    && bm.selection == old(bm.selection)
    && bm.defaults.stored == Encoded(bm.selection)
    && bm.store.shield == SessionShield(bm.selection, token)
    && bm.center.monitored == (
         var stopped := old(bm.center.monitored) - {SessionTimer};
         if accepted then stopped[SessionTimer := SessionSchedule(now, minutes)] else stopped)
    && bm.backupDeadlines == old(bm.backupDeadlines) + multiset{now + minutes * 60}
  }

  /** Nothing the manager owns has changed. */
  twostate predicate Untouched(bm: BlockingManager)
    reads bm, bm.store, bm.center, bm.defaults
  {
    unchanged(bm, bm.store, bm.center, bm.defaults)
  }
}

/**
  The DeviceActivity monitor extension: a separate process the OS wakes at the
  boundaries of the "sessionTimer" interval. It shares only the shield store
  and the saved selection with the app.
 */
module Monitor {
  import opened SharedModel

  class DeviceActivityMonitorExtension {
    const store: ShieldStore
    const defaults: SharedDefaults

    constructor (store: ShieldStore, defaults: SharedDefaults)
      ensures this.store == store && this.defaults == defaults
    {
      this.store := store;
      this.defaults := defaults;
    }

    /** The app has already applied the session shield; the start of the interval changes nothing. */
    method IntervalDidStart(activity: ActivityName)
      ensures unchanged(store, defaults)
    {
    }

    /** The end of the session interval re-applies the full shield from the saved selection. */
    method IntervalDidEnd(activity: ActivityName)
      modifies store
      ensures store.shield == if activity == SessionTimer then Locked(old(store.shield), defaults.AppSelection())
                              else old(store.shield)
    {
      if activity == SessionTimer {
        var saved := defaults.AppSelection();
        store.shield := Locked(store.shield, saved);
      }
    }
  }
}

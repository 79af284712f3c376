/**
  State shared between the app and its extensions: the app-group defaults that
  hold the saved FamilyActivitySelection, the ManagedSettings shield store and
  the DeviceActivity centre that schedules the session interval.
 */
module SharedModel {
  import opened Wrappers

  datatype AppToken = AppToken(id: nat)
  datatype CategoryToken = CategoryToken(id: nat)
  datatype WebDomainToken = WebDomainToken(id: nat)

  /** FamilyActivitySelection: the applications and categories chosen for restriction. */
  datatype Selection = Selection(apps: set<AppToken>, categories: set<CategoryToken>)

  const EmptySelection := Selection({}, {})

  /** What the "SavedAppSelection" key of the app group holds. */
  datatype StoredSelection = Missing | Undecodable | Encoded(selection: Selection)

  /** The `appSelection` getter: the decoded selection, or the empty one when the key is missing or undecodable. */
  function Decoded(stored: StoredSelection): Selection
  {
    match stored
    case Encoded(s) => s
    case _ => EmptySelection
  }

  /** The saved selection reads back as written; a bad cell reads as "nothing selected". */
  lemma DecodedCases(stored: StoredSelection, s: Selection)
    ensures Decoded(Encoded(s)) == s
    ensures !stored.Encoded? ==> Decoded(stored).apps == {} && Decoded(stored).categories == {}
  {
  }

  /** UserDefaults(suiteName: app group), reduced to the one key the core uses. */
  class SharedDefaults {
    var stored: StoredSelection

    constructor (stored: StoredSelection)
      ensures this.stored == stored
    {
      this.stored := stored;
    }

    function AppSelection(): Selection
      reads this
    {
      Decoded(stored)
    }

    /** The `appSelection` setter (the property-list encoding is taken to succeed). */
    method SaveAppSelection(selection: Selection)
      modifies this
      ensures stored == Encoded(selection)
      ensures AppSelection() == selection
    {
      stored := Encoded(selection);
    }
  }

  /**
    `store.shield`: for each kind of target, nil (None: nothing shielded) or a
    set. The category policy `.specific(cats)` is Some(cats).
   */
  datatype Shield = Shield(
    applications: Option<set<AppToken>>,
    categories: Option<set<CategoryToken>>,
    webDomains: Option<set<WebDomainToken>>)

  predicate AppShielded(sh: Shield, a: AppToken)
  {
    sh.applications.Some? && a in sh.applications.value
  }

  predicate CategoryShielded(sh: Shield, c: CategoryToken)
  {
    sh.categories.Some? && c in sh.categories.value
  }

  /**
    The full lock applied by `updateShield`, the backup timer and the monitor's
    `intervalDidEnd`: applications and categories set to the selection; web
    domains are not touched.
   */
  function Locked(sh: Shield, selection: Selection): Shield
  {
    sh.(applications := Some(selection.apps), categories := Some(selection.categories))
  }

  /** Under the full lock exactly the selected applications and categories are shielded. */
  lemma LockedShieldsSelection(sh: Shield, selection: Selection)
    ensures forall a :: AppShielded(Locked(sh, selection), a) <==> a in selection.apps
    ensures forall c :: CategoryShielded(Locked(sh, selection), c) <==> c in selection.categories
    ensures Locked(sh, selection).webDomains == sh.webDomains
  {
  }

  /** Locking twice is locking once. */
  lemma LockedIdempotent(sh: Shield, selection: Selection)
    ensures Locked(Locked(sh, selection), selection) == Locked(sh, selection)
  {
  }

  /** ManagedSettingsStore: the OS store both the app and the monitor extension write. */
  class ShieldStore {
    var shield: Shield

    constructor (shield: Shield)
      ensures this.shield == shield
    {
      this.shield := shield;
    }
  }

  /** DeviceActivityName. */
  datatype ActivityName = ActivityName(name: string)

  const SessionTimer := ActivityName("sessionTimer")

  /** DeviceActivitySchedule; interval bounds are absolute times in seconds here. */
  datatype Schedule = Schedule(intervalStart: int, intervalEnd: int, repeats: bool)

  /** DeviceActivityCenter: the activities currently monitored and their schedules. */
  class ActivityCenter {
    var monitored: map<ActivityName, Schedule>

    constructor ()
      ensures monitored == map[]
    {
      monitored := map[];
    }

    method StopMonitoring(names: set<ActivityName>)
      modifies this
      ensures monitored == old(monitored) - names
    {
      monitored := monitored - names;
    }

    /** `startMonitoring`; whether the OS accepts the schedule is decided outside the model. */
    method StartMonitoring(name: ActivityName, schedule: Schedule, accepted: bool) returns (ok: bool)
      modifies this
      ensures ok == accepted
      ensures monitored == if accepted then old(monitored)[name := schedule] else old(monitored)
    {
      ok := accepted;
      if accepted {
        monitored := monitored[name := schedule];
      }
    }
  }
}

/**
 * The host's side of the component registry: the package's static manifest
 * and the enabled setting the package manager keeps for each component.
 */
module ComponentRegistry {
  import opened Wrappers

  /** The component enabled settings the package manager can report. */
  datatype EnabledState = Default | Enabled | Disabled | DisabledUser | DisabledUntilUsed

  /**
   * One declared component: its class name and the two meta-data strings of
   * its manifest entry (`None` when the entry has no meta-data or no such key).
   */
  datatype ComponentInfo = ComponentInfo(
    name: string,
    appFamilies: Option<string>,
    mainForAppFamilies: Option<string>)

  /** What a package-info query returns; a kind of component with no entries is `null`. */
  datatype PackageInfo = PackageInfo(
    services: Option<seq<ComponentInfo>>,
    receivers: Option<seq<ComponentInfo>>,
    providers: Option<seq<ComponentInfo>>,
    activities: Option<seq<ComponentInfo>>)

  /**
   * The exceptions a registry query can end in: the package's own name is not
   * found (rethrown as a `RuntimeException`), or the activity array is `null`
   * where it is spread into a list (a `NullPointerException`).
   */
  datatype QueryError = PackageNameNotFound | NullActivities

  /** The setting of `name` in `settings`; a component never set reads as `Default`. */
  function SettingOf(settings: map<string, EnabledState>, name: string): EnabledState {
    if name in settings then settings[name] else Default
  }

  /** The package manager of the running device, as far as this package sees it. */
  class PackageManager {
    /** The result of querying this package's info; `None` when the query throws. */
    const packageInfo: Option<PackageInfo>
    /** The enabled setting of every component that was ever set. */
    var settings: map<string, EnabledState>

    constructor (packageInfo: Option<PackageInfo>, settings: map<string, EnabledState>)
      ensures this.packageInfo == packageInfo && this.settings == settings
    {
      this.packageInfo := packageInfo;
      this.settings := settings;
    }

    /** `getComponentEnabledSetting`. */
    function GetComponentEnabledSetting(name: string): (s: EnabledState)
      reads this
      ensures name in settings ==> s == settings[name]
      ensures name !in settings ==> s == Default
    {
      SettingOf(settings, name)
    }

    /** `setComponentEnabledSetting(name, value, DONT_KILL_APP)`: an unconditional write. */
    method SetComponentEnabledSetting(name: string, value: EnabledState)
      modifies this
      ensures settings == old(settings)[name := value]
      ensures GetComponentEnabledSetting(name) == value
    {
      settings := settings[name := value];
    }
  }
}

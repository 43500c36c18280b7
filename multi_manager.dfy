/**
 * The multi-family manager: the startup reconciliation of the stored record
 * with the component registry, and the write-ahead switch between families.
 */
module MultiDynamicAppManager {
  import opened Wrappers
  import opened KotlinStdlib
  import opened DynamicAppManagerPrefs
  import opened ComponentRegistry
  import opened BaseDynamicAppManager
  import ACM = AppComponentModifier

  /** The format version of the stored record; any other stored value is not trusted. */
  const SYSTEM_VERSION: int32 := 2

  /** The three things `initialize` can do, the refresh split by its reason. */
  datatype InitPath = ResetToDefault | RefreshOnVersionChange | RefreshOnFamilyMismatch | AdoptStored

  /** The stored record cannot be trusted: wrong format version, or no family stored. */
  predicate RecordUntrusted(r: Record) {
    GetInt(r.systemVersion) != SYSTEM_VERSION || r.appFamily.None? || r.appFamily.value == ""
  }

  /** An earlier toggle was interrupted, and it is still within the retry bound. */
  predicate InRetryWindow(r: Record) {
    1 <= FailedCount(r) <= MAX_FAILED_ATTEMPT_COUNT
  }

  /** The path `initialize` takes for the stored record `r` and the running version. */
  function InitPathOf(r: Record, appVersionCode: int32): (path: InitPath)
    ensures path == ResetToDefault <==> RecordUntrusted(r) || InRetryWindow(r)
    ensures path == AdoptStored ==>
      appVersionCode == GetInt(r.previousAppVersion) && r.appFamily == r.expectedAppFamily
  {
    if RecordUntrusted(r) || InRetryWindow(r) then ResetToDefault
    else if appVersionCode != GetInt(r.previousAppVersion) then RefreshOnVersionChange
    else if r.appFamily != r.expectedAppFamily then RefreshOnFamilyMismatch
    else AdoptStored
  }

  /**
   * The record a completed switch leaves: the file is cleared and exactly the
   * seven keys are written again.
   */
  function SwitchedRecord(appFamily: string, previousAppFamily: string, isFirstTime: bool, appVersionCode: int32): Record {
    Record(
      systemVersion := Some(SYSTEM_VERSION),
      appFamilyChangeSignal := Some(!isFirstTime),
      appFamily := Some(appFamily),
      expectedAppFamily := Some(appFamily),
      previousAppFamily := Some(previousAppFamily),
      previousAppVersion := Some(appVersionCode),
      failedToggleAttemptCount := Some(0))
  }

  /** The record a completed refresh leaves: three keys rewritten, the rest kept. */
  function RefreshedRecord(r: Record, appFamily: string, appVersionCode: int32): Record {
    r.(expectedAppFamily := Some(appFamily),
       previousAppVersion := Some(appVersionCode),
       failedToggleAttemptCount := Some(0))
  }

  /** The record after the change signal is consumed. */
  function SignalConsumed(r: Record): Record {
    r.(appFamilyChangeSignal := Some(false))
  }

  /**
   * The record left by a freshly started process whose `initialize` dies right
   * after its first commit. Such a process has the empty family in memory,
   * so a reset to an empty default family writes nothing.
   */
  function CrashedStart(r: Record, appVersionCode: int32, defaultAppFamily: string): Record {
    match InitPathOf(r, appVersionCode)
    case AdoptStored => r
    case ResetToDefault => if defaultAppFamily == "" then r else AttemptCommitted(r, FailedCount(r))
    case _ => AttemptCommitted(r, FailedCount(r))
  }

  /** What `initialize` reports back: its path, the registry's change flag and whether it asks for a rebirth. */
  datatype InitOutcome = InitOutcome(path: InitPath, componentsModified: bool, rebirth: bool)

  /**
   * How the process is relaunched after a switch: through the switch activity
   * (with the relaunch intent, if there is one), straight into the relaunch
   * intent, or by a rebirth of the process.
   */
  datatype RelaunchAction = BeginSwitch(relaunchIntent: Option<ACM.Intent>) | EndSwitch(launchIntent: ACM.Intent) | Rebirth

  /** The relaunch intent with the caller's extras merged in, when the caller gave any. */
  function MergeExtras(relaunch: ACM.Intent, launchIntent: Option<ACM.Intent>): (m: ACM.Intent)
    ensures m.component == relaunch.component
    ensures launchIntent.Some? && launchIntent.value.extras.Some? ==> m.extras == launchIntent.value.extras
    ensures launchIntent.None? || launchIntent.value.extras.None? ==> m == relaunch
  {
    if launchIntent.Some? && launchIntent.value.extras.Some?
    then relaunch.(extras := launchIntent.value.extras)
    else relaunch
  }

  /** The registry pass's result with the new settings dropped: what `switchToAppFamily` returns. */
  function ChangedFlag(a: Result<ACM.Applied, QueryError>): Result<bool, QueryError> {
    match a
    case Failure(e) => Failure(e)
    case Success(applied) => Success(applied.changed)
  }

  class MultiDynamicAppManager {
    /** The durable preferences file, shared with every later process. */
    const prefs: SharedPreferences
    /** The device's package manager, shared with every later process. */
    const pm: PackageManager
    const defaultAppFamily: string
    /** The version code of the running package. */
    const appVersionCode: int32
    const active: bool

    var applicationFamily: string
    var hasAppFamilyChangeSignal: bool
    var failedToggleAttemptCount: int32
    /** Everything this manager did that the outside world can see, in order. */
    ghost var log: seq<Effect>

    /** A manager in a freshly started process: nothing is loaded yet. */
    constructor (prefs: SharedPreferences, pm: PackageManager, defaultAppFamily: string, appVersionCode: int32)
      ensures this.prefs == prefs && this.pm == pm
      ensures this.defaultAppFamily == defaultAppFamily && this.appVersionCode == appVersionCode
      ensures active
      ensures applicationFamily == "" && !hasAppFamilyChangeSignal && failedToggleAttemptCount == 0
      ensures log == []
    {
      this.prefs := prefs;
      this.pm := pm;
      this.defaultAppFamily := defaultAppFamily;
      this.appVersionCode := appVersionCode;
      active := true;
      applicationFamily := "";
      hasAppFamilyChangeSignal := false;
      failedToggleAttemptCount := 0;
      log := [];
    }

    /** Neither the durable state nor the session's family changed, and nothing was done. */
    twostate predicate Untouched()
      reads this, prefs, pm
    {
      prefs.record == old(prefs.record) && pm.settings == old(pm.settings) &&
      applicationFamily == old(applicationFamily) && log == old(log)
    }

    /**
     * The effect of `setCurrentAppFamily(appFamily, isFirstTime)` when leaving
     * `fromFamily` with `loaded` as the in-memory attempt count: the hook
     * call, the write-ahead commit, the registry pass; then, unless the pass
     * threw, the whole record replaced and the session moved to `appFamily`.
     */
    twostate predicate SwitchedFamily(fromFamily: string, appFamily: string, isFirstTime: bool, loaded: int32)
      reads this, prefs, pm
    {
      var attempted := AttemptCommitted(old(prefs.record), loaded);
      var opening := old(log) + [PreAppFamilySwitch(fromFamily, appFamily)] + [Commit(attempted)] + [SwitchComponents(appFamily)];
      match ACM.SwitchSpec(old(pm.settings), pm.packageInfo, appFamily)
      case Failure(_) =>
        prefs.record == attempted && pm.settings == old(pm.settings) &&
        applicationFamily == old(applicationFamily) && log == opening
      case Success(a) =>
        var switched := SwitchedRecord(appFamily, fromFamily, isFirstTime, appVersionCode);
        prefs.record == switched && pm.settings == a.settings &&
        applicationFamily == appFamily && log == opening + [Commit(switched)]
    }

    /**
     * The effect of a refresh of `appFamily` with `loaded` as the in-memory
     * attempt count: the write-ahead commit, the registry pass and, unless it
     * threw, the three refreshed keys.
     */
    twostate predicate RefreshedFamily(appFamily: string, loaded: int32)
      reads this, prefs, pm
    {
      var attempted := AttemptCommitted(old(prefs.record), loaded);
      var opening := old(log) + [Commit(attempted), SwitchComponents(appFamily)];
      match ACM.SwitchSpec(old(pm.settings), pm.packageInfo, appFamily)
      case Failure(_) =>
        prefs.record == attempted && pm.settings == old(pm.settings) && log == opening
      case Success(a) =>
        var refreshed := RefreshedRecord(attempted, appFamily, appVersionCode);
        prefs.record == refreshed && pm.settings == a.settings && log == opening + [Commit(refreshed)]
    }

    /**
     * `initialize()`: loads the change signal and the attempt count, then
     * resets to the default family (asking for a rebirth when the registry had
     * been modified before and the reset changed it again), refreshes the
     * stored family, or adopts it as it is.
     */
    method Initialize() returns (r: Result<InitOutcome, QueryError>)
      modifies this, prefs, pm
      ensures hasAppFamilyChangeSignal == GetBoolean(old(prefs.record).appFamilyChangeSignal)
      ensures failedToggleAttemptCount == FailedCount(old(prefs.record))
      ensures r.Success? ==> r.value.path == InitPathOf(old(prefs.record), appVersionCode)
      ensures r.Success? ==> r.value.rebirth == (ACM.ComponentListModified(old(pm.settings)) && r.value.componentsModified)
      ensures var path := InitPathOf(old(prefs.record), appVersionCode);
              var hadModified := ACM.ComponentListModified(old(pm.settings));
              var pass := ACM.SwitchSpec(old(pm.settings), pm.packageInfo, defaultAppFamily);
        && (path == ResetToDefault && defaultAppFamily == old(applicationFamily) ==>
              r == Success(InitOutcome(path, false, false)) && Untouched())
        && (path == ResetToDefault && defaultAppFamily != old(applicationFamily) ==>
              SwitchedFamily(old(applicationFamily), defaultAppFamily, !hadModified, FailedCount(old(prefs.record))) &&
              (pass.Failure? ==> r == Failure(pass.error)) &&
              (pass.Success? ==> r.Success? && r.value.componentsModified == pass.value.changed &&
                                 GetBoolean(prefs.record.appFamilyChangeSignal) == hadModified))
    ensures |log| >= |old(log)|
    ensures old(applicationFamily) == "" ==>
      FirstCommit(log[|old(log)|..], old(prefs.record)) ==
        CrashedStart(old(prefs.record), appVersionCode, defaultAppFamily)
    ensures var path := InitPathOf(old(prefs.record), appVersionCode);
            var stored := old(prefs.record).appFamily;
        && (path != ResetToDefault ==> applicationFamily == stored.value)
        && (path == AdoptStored ==>
              r == Success(InitOutcome(path, false, false)) &&
              prefs.record == old(prefs.record) && pm.settings == old(pm.settings) && log == old(log))
        && (path in {RefreshOnVersionChange, RefreshOnFamilyMismatch} ==>
              RefreshedFamily(stored.value, FailedCount(old(prefs.record))) &&
              (ACM.SwitchSpec(old(pm.settings), pm.packageInfo, stored.value).Failure? <==> r.Failure?) &&
              (r.Success? ==> r.value == InitOutcome(path, false, false)))
    {
      var loaded := prefs.record;
      ghost var path := InitPathOf(loaded, appVersionCode);
      hasAppFamilyChangeSignal := GetBoolean(loaded.appFamilyChangeSignal);
      var currentAppFamily := loaded.appFamily;
      var expectedAppFamily := loaded.expectedAppFamily;
      var previousAppVersionCode := GetInt(loaded.previousAppVersion);
      var systemVersion := GetInt(loaded.systemVersion);
      var hadComponentsModified := ACM.CheckComponentListModifiedState(pm);
      failedToggleAttemptCount := GetInt(loaded.failedToggleAttemptCount);

      if systemVersion != SYSTEM_VERSION || currentAppFamily.None? || currentAppFamily.value == "" ||
         (1 <= failedToggleAttemptCount <= MAX_FAILED_ATTEMPT_COUNT)
      {
        assert path == ResetToDefault;
        var componentsModified := SetCurrentAppFamily(defaultAppFamily, !hadComponentsModified);
        if defaultAppFamily != old(applicationFamily) {
          ghost var started := log[|old(log)|..];
          assert started[0].PreAppFamilySwitch? && started[1] == Commit(AttemptCommitted(loaded, failedToggleAttemptCount));
          assert FirstCommit(started, loaded) == AttemptCommitted(loaded, failedToggleAttemptCount);
        }
        if componentsModified.Failure? {
          return Failure(componentsModified.error);
        }
        var rebirth := hadComponentsModified && componentsModified.value;
        return Success(InitOutcome(ResetToDefault, componentsModified.value, rebirth));
      } else {
        applicationFamily := currentAppFamily.value;
        if appVersionCode != previousAppVersionCode {
          assert path == RefreshOnVersionChange;
          var refreshed := RefreshManifestComponentsOnInconsistency();
          if refreshed.Failure? {
            return Failure(refreshed.error);
          }
          return Success(InitOutcome(RefreshOnVersionChange, false, false));
        } else if currentAppFamily != expectedAppFamily {
          assert path == RefreshOnFamilyMismatch;
          var refreshed := RefreshManifestComponentsOnInconsistency();
          if refreshed.Failure? {
            return Failure(refreshed.error);
          }
          return Success(InitOutcome(RefreshOnFamilyMismatch, false, false));
        }
        assert path == AdoptStored;
        return Success(InitOutcome(AdoptStored, false, false));
      }
    }

    /** `getDefaultActivityClassName()`: the class name of the active family's main activity. */
    method GetDefaultActivityClassName() returns (r: Result<Option<string>, QueryError>)
      ensures r == ACM.GetDefaultActivityClassNameForAppFamily(pm.packageInfo, applicationFamily)
    {
      r := ACM.GetDefaultActivityClassNameForAppFamily(pm.packageInfo, applicationFamily);
    }

    /**
     * `returnToDefaultFamily()`: a switch to the default family that is not a
     * first-time assignment; no relaunch is requested.
     */
    method ReturnToDefaultFamily() returns (r: Result<bool, QueryError>)
      modifies this, prefs, pm
      ensures hasAppFamilyChangeSignal == old(hasAppFamilyChangeSignal)
      ensures failedToggleAttemptCount == old(failedToggleAttemptCount)
      ensures defaultAppFamily == old(applicationFamily) ==> r == Success(false) && Untouched()
      ensures defaultAppFamily != old(applicationFamily) ==>
        SwitchedFamily(old(applicationFamily), defaultAppFamily, false, failedToggleAttemptCount) &&
        r == ChangedFlag(ACM.SwitchSpec(old(pm.settings), pm.packageInfo, defaultAppFamily))
    {
      r := SetCurrentAppFamily(defaultAppFamily, false);
    }

    /**
     * `switchToAppFamily(appFamily, useSwitchActivity, launchIntent)`: switches
     * (or finds the family already active), then picks how to relaunch into
     * the family's main activity with the caller's extras.
     */
    method SwitchToAppFamily(appFamily: string, useSwitchActivity: bool, launchIntent: Option<ACM.Intent>)
      returns (r: Result<RelaunchAction, QueryError>)
      modifies this, prefs, pm
      ensures hasAppFamilyChangeSignal == old(hasAppFamilyChangeSignal)
      ensures failedToggleAttemptCount == old(failedToggleAttemptCount)
      ensures appFamily == old(applicationFamily) ==> Untouched()
      ensures appFamily != old(applicationFamily) ==>
        SwitchedFamily(old(applicationFamily), appFamily, false, failedToggleAttemptCount)
      ensures var switched := appFamily == old(applicationFamily) ||
                              ACM.SwitchSpec(old(pm.settings), pm.packageInfo, appFamily).Success?;
              var lookup := ACM.GetLaunchIntentForAppFamily(pm.packageInfo, appFamily);
        && (!switched ==> r == Failure(ACM.SwitchSpec(old(pm.settings), pm.packageInfo, appFamily).error))
        && (switched && lookup.Failure? ==> r == Failure(lookup.error))
        && (switched && lookup.Success? ==>
              var relaunch := if lookup.value.Some? then Some(MergeExtras(lookup.value.value, launchIntent)) else None;
              r.Success? &&
              (useSwitchActivity ==> r.value == BeginSwitch(relaunch)) &&
              (!useSwitchActivity && relaunch.Some? ==> r.value == EndSwitch(relaunch.value)) &&
              (!useSwitchActivity && relaunch.None? ==> r.value == Rebirth))
    {
      var switched := SetCurrentAppFamily(appFamily, false);
      if switched.Failure? {
        return Failure(switched.error);
      }
      var lookup := ACM.GetLaunchIntentForAppFamily(pm.packageInfo, applicationFamily);
      if lookup.Failure? {
        return Failure(lookup.error);
      }
      var relaunchIntent := if lookup.value.Some? then Some(MergeExtras(lookup.value.value, launchIntent)) else None;
      if useSwitchActivity {
        r := Success(BeginSwitch(relaunchIntent));
      } else if relaunchIntent.Some? {
        r := Success(EndSwitch(relaunchIntent.value));
      } else {
        r := Success(Rebirth);
      }
    }

    /** `hasPendingAppFamilyChangeSignal()`: the signal as loaded or last consumed in this session. */
    method HasPendingAppFamilyChangeSignal() returns (pending: bool)
      ensures pending == hasAppFamilyChangeSignal
    {
      pending := hasAppFamilyChangeSignal;
    }

    /** `consumePendingAppFamilyChangeSignal()`: clears the signal in the session and in the record. */
    method ConsumePendingAppFamilyChangeSignal()
      modifies this, prefs
      ensures !hasAppFamilyChangeSignal
      ensures prefs.record == SignalConsumed(old(prefs.record))
      ensures log == old(log) + [Commit(prefs.record)]
      ensures applicationFamily == old(applicationFamily)
      ensures failedToggleAttemptCount == old(failedToggleAttemptCount)
    {
      hasAppFamilyChangeSignal := false;
      prefs.record := SignalConsumed(prefs.record);
      log := log + [Commit(prefs.record)];
    }

    /**
     * `setCurrentAppFamily(appFamily, isFirstTime)`: nothing at all when the
     * family is already active; otherwise the hook, the write-ahead commit,
     * the registry pass and the full record rewrite, in that order.
     */
    method SetCurrentAppFamily(appFamily: string, isFirstTime: bool) returns (r: Result<bool, QueryError>)
      modifies this, prefs, pm
      ensures hasAppFamilyChangeSignal == old(hasAppFamilyChangeSignal)
      ensures failedToggleAttemptCount == old(failedToggleAttemptCount)
      ensures appFamily == old(applicationFamily) ==> r == Success(false) && Untouched()
      ensures appFamily != old(applicationFamily) ==>
        SwitchedFamily(old(applicationFamily), appFamily, isFirstTime, failedToggleAttemptCount) &&
        r == ChangedFlag(ACM.SwitchSpec(old(pm.settings), pm.packageInfo, appFamily))
    {
      if appFamily == applicationFamily {
        return Success(false);
      }
      log := log + [PreAppFamilySwitch(applicationFamily, appFamily)];
      CommitAttempt();
      r := PassAndCommitSwitch(appFamily, isFirstTime);
    }

    /**
     * The rest of a switch once the write-ahead count is committed: the
     * registry pass and, unless it threw, the closing edit and the new family.
     */
    method PassAndCommitSwitch(appFamily: string, isFirstTime: bool) returns (r: Result<bool, QueryError>)
      modifies this, prefs, pm
      ensures hasAppFamilyChangeSignal == old(hasAppFamilyChangeSignal)
      ensures failedToggleAttemptCount == old(failedToggleAttemptCount)
      ensures match ACM.SwitchSpec(old(pm.settings), pm.packageInfo, appFamily)
        case Failure(e) =>
          r == Failure(e) && prefs.record == old(prefs.record) && pm.settings == old(pm.settings) &&
          applicationFamily == old(applicationFamily) && log == old(log) + [SwitchComponents(appFamily)]
        case Success(a) =>
          var switched := SwitchedRecord(appFamily, old(applicationFamily), isFirstTime, appVersionCode);
          r == Success(a.changed) && prefs.record == switched && pm.settings == a.settings &&
          applicationFamily == appFamily && log == old(log) + [SwitchComponents(appFamily)] + [Commit(switched)]
    {
      log := log + [SwitchComponents(appFamily)];
      var componentsModified := ACM.SwitchToAppFamily(pm, appFamily);
      if componentsModified.Failure? {
        return Failure(componentsModified.error);
      }
      CommitSwitch(appFamily, isFirstTime);
      applicationFamily := appFamily;
      return Success(componentsModified.value);
    }

    /**
     * `refreshManifestComponentsOnInconsistency()`: re-applies the active
     * family between a write-ahead commit and the three refreshed keys.
     */
    method RefreshManifestComponentsOnInconsistency() returns (r: Result<(), QueryError>)
      modifies this, prefs, pm
      ensures hasAppFamilyChangeSignal == old(hasAppFamilyChangeSignal)
      ensures failedToggleAttemptCount == old(failedToggleAttemptCount)
      ensures applicationFamily == old(applicationFamily)
      ensures RefreshedFamily(applicationFamily, failedToggleAttemptCount)
      ensures r.Failure? <==> ACM.SwitchSpec(old(pm.settings), pm.packageInfo, applicationFamily).Failure?
    {
      CommitAttempt();
      log := log + [SwitchComponents(applicationFamily)];
      var componentsModified := ACM.SwitchToAppFamily(pm, applicationFamily);
      if componentsModified.Failure? {
        return Failure(componentsModified.error);
      }
      prefs.record := RefreshedRecord(prefs.record, applicationFamily, appVersionCode);
      log := log + [Commit(prefs.record)];
      return Success(());
    }

    /** The write-ahead commit: the in-memory attempt count plus one. */
    method CommitAttempt()
      modifies prefs, this`log
      ensures prefs.record == AttemptCommitted(old(prefs.record), failedToggleAttemptCount)
      ensures log == old(log) + [Commit(prefs.record)]
    {
      prefs.record := AttemptCommitted(prefs.record, failedToggleAttemptCount);
      log := log + [Commit(prefs.record)];
    }

    /** The closing commit of a switch: the file cleared and rewritten in full. */
    method CommitSwitch(appFamily: string, isFirstTime: bool)
      modifies prefs, this`log
      ensures prefs.record == SwitchedRecord(appFamily, applicationFamily, isFirstTime, appVersionCode)
      ensures log == old(log) + [Commit(prefs.record)]
    {
      prefs.record := SwitchedRecord(appFamily, applicationFamily, isFirstTime, appVersionCode);
      log := log + [Commit(prefs.record)];
    }
  }

  // ---------------------------------------------------------------------------
  // Properties of the stored record across restarts
  // ---------------------------------------------------------------------------

  /**
   * `initialize` resets exactly when the record is not trusted or an earlier
   * toggle was interrupted no more than the maximum number of times; a count
   * above the maximum, or zero, leaves a trusted family in place.
   */
  lemma ResetPathIff(r: Record, appVersionCode: int32)
    ensures InitPathOf(r, appVersionCode) == ResetToDefault <==>
      GetInt(r.systemVersion) != SYSTEM_VERSION || GetString(r.appFamily, "") == "" ||
      (1 <= FailedCount(r) <= MAX_FAILED_ATTEMPT_COUNT)
    ensures !RecordUntrusted(r) && (FailedCount(r) > MAX_FAILED_ATTEMPT_COUNT || FailedCount(r) <= 0) ==>
      InitPathOf(r, appVersionCode) != ResetToDefault
  {
  }

  /**
   * On a trusted record outside the retry window, `initialize` refreshes
   * exactly when the version changed or the family is not the expected one.
   */
  lemma RefreshPathIff(r: Record, appVersionCode: int32)
    requires !RecordUntrusted(r) && !InRetryWindow(r)
    ensures InitPathOf(r, appVersionCode) == RefreshOnVersionChange <==> appVersionCode != GetInt(r.previousAppVersion)
    ensures InitPathOf(r, appVersionCode) == RefreshOnFamilyMismatch <==>
      appVersionCode == GetInt(r.previousAppVersion) && r.appFamily != r.expectedAppFamily
    ensures InitPathOf(r, appVersionCode) == AdoptStored <==>
      appVersionCode == GetInt(r.previousAppVersion) && r.appFamily == r.expectedAppFamily
  {
  }

  /**
   * A process that dies after the write-ahead commit, before the record is
   * rewritten, leaves a record on which the next start resets to the default
   * family, whatever the record held before, as long as the count it loaded
   * was below the maximum.
   */
  lemma CrashAfterWriteAheadResets(r: Record, loadedCount: int32, appVersionCode: int32)
    requires 0 <= loadedCount < MAX_FAILED_ATTEMPT_COUNT
    ensures InitPathOf(AttemptCommitted(r, loadedCount), appVersionCode) == ResetToDefault
  {
  }

  /**
   * The other side of the retry window: a session whose `initialize` loaded a
   * count of 3 or more keeps that count in memory, so a later switch commits
   * 4 or more (or wraps to a negative count). If the process dies after that
   * commit, the next start does not reset a trusted record; with the same
   * version and matching families it adopts the record as it is, although
   * the registry pass may be half done.
   */
  lemma StaleCountCrashSkipsReset(r: Record, loadedCount: int32, appVersionCode: int32)
    requires !RecordUntrusted(r)
    requires loadedCount >= MAX_FAILED_ATTEMPT_COUNT
    ensures InitPathOf(AttemptCommitted(r, loadedCount), appVersionCode) != ResetToDefault
    ensures appVersionCode == GetInt(r.previousAppVersion) && r.appFamily == r.expectedAppFamily ==>
      InitPathOf(AttemptCommitted(r, loadedCount), appVersionCode) == AdoptStored
  {
    var attempted := AttemptCommitted(r, loadedCount);
    assert FailedCount(attempted) == Inc(loadedCount);
    assert !InRetryWindow(attempted);
  }

  /**
   * The stale count in one concrete session: a completed switch to "a" at
   * version 5, loaded with count 3, then a switch whose process dies after
   * its write-ahead commit; the next start adopts the record.
   */
  lemma StaleCountExample()
    ensures InitPathOf(AttemptCommitted(SwitchedRecord("a", "", true, 5), 3), 5) == AdoptStored
  {
    StaleCountCrashSkipsReset(SwitchedRecord("a", "", true, 5), 3, 5);
  }

  /**
   * A completed switch leaves a record holding every key, with the family
   * equal to the expected family and a zero count: the next start of the
   * same version adopts it as it is.
   */
  lemma SwitchedRecordIsSettled(appFamily: string, previousAppFamily: string, isFirstTime: bool, appVersionCode: int32)
    requires appFamily != ""
    ensures var r := SwitchedRecord(appFamily, previousAppFamily, isFirstTime, appVersionCode);
      PresentKeys(r) == ALL_KEYS && r.appFamily == r.expectedAppFamily && FailedCount(r) == 0 &&
      GetBoolean(r.appFamilyChangeSignal) == !isFirstTime &&
      InitPathOf(r, appVersionCode) == AdoptStored
  {
    var r := SwitchedRecord(appFamily, previousAppFamily, isFirstTime, appVersionCode);
    assert PresentKeys(r) == ALL_KEYS;
  }

  /**
   * A completed refresh of the stored family leaves a record the next start
   * of the same version adopts, with the family, the previous family, the
   * change signal and the format version as they were.
   */
  lemma RefreshedRecordIsSettled(r: Record, loadedCount: int32, appVersionCode: int32)
    requires !RecordUntrusted(r)
    ensures var s := RefreshedRecord(AttemptCommitted(r, loadedCount), r.appFamily.value, appVersionCode);
      InitPathOf(s, appVersionCode) == AdoptStored &&
      s.appFamily == r.appFamily && s.previousAppFamily == r.previousAppFamily &&
      s.appFamilyChangeSignal == r.appFamilyChangeSignal && s.systemVersion == r.systemVersion
  {
  }

  /** An upgrade from version 1 to 2 of a settled family "a" is a refresh that settles at version 2. */
  lemma VersionUpgradeExample()
    ensures var r := SwitchedRecord("a", "", true, 1);
      InitPathOf(r, 2) == RefreshOnVersionChange &&
      RefreshedRecord(AttemptCommitted(r, 0), "a", 2) == SwitchedRecord("a", "", true, 2)
  {
  }

  /** Consuming the signal makes every later start load it as `false`, until a switch sets it again. */
  lemma ConsumedSignalStaysFalse(r: Record, loadedCount: int32, appFamily: string, appVersionCode: int32)
    ensures !GetBoolean(SignalConsumed(r).appFamilyChangeSignal)
    ensures !GetBoolean(AttemptCommitted(SignalConsumed(r), loadedCount).appFamilyChangeSignal)
    ensures !GetBoolean(RefreshedRecord(SignalConsumed(r), appFamily, appVersionCode).appFamilyChangeSignal)
    ensures GetBoolean(SwitchedRecord(appFamily, "", false, appVersionCode).appFamilyChangeSignal)
  {
  }

  /** The records left by `n` fresh starts in a row that each die right after their first commit. */
  function CrashLoop(r: Record, appVersionCode: int32, defaultAppFamily: string, n: nat): Record
    decreases n
  {
    if n == 0 then r else CrashLoop(CrashedStart(r, appVersionCode, defaultAppFamily), appVersionCode, defaultAppFamily, n - 1)
  }

  /** How many of those `n` starts take the reset path. */
  function ResetAttempts(r: Record, appVersionCode: int32, defaultAppFamily: string, n: nat): nat
    decreases n
  {
    if n == 0 then 0
    else
      var later := ResetAttempts(CrashedStart(r, appVersionCode, defaultAppFamily), appVersionCode, defaultAppFamily, n - 1);
      if InitPathOf(r, appVersionCode) == ResetToDefault then later + 1 else later
  }

  /** The most resets still to come for a trusted record with `count` stored. */
  function ResetsLeft(count: int32): nat {
    if count <= 1 then MAX_FAILED_ATTEMPT_COUNT as nat
    else if count <= MAX_FAILED_ATTEMPT_COUNT then (MAX_FAILED_ATTEMPT_COUNT + 1 - count) as nat
    else 0
  }

  /**
   * On a trusted record, however many starts die after their first commit,
   * at most `MAX_FAILED_ATTEMPT_COUNT` of them reset to the default family, as
   * long as the stored count cannot wrap around within those starts.
   */
  lemma {:induction false} TrustedCrashLoopBounded(r: Record, appVersionCode: int32, defaultAppFamily: string, n: nat)
    requires !RecordUntrusted(r) && defaultAppFamily != ""
    requires FailedCount(r) as int + n <= INT32_MAX as int
    ensures ResetAttempts(r, appVersionCode, defaultAppFamily, n) <= ResetsLeft(FailedCount(r))
    ensures ResetAttempts(r, appVersionCode, defaultAppFamily, n) <= MAX_FAILED_ATTEMPT_COUNT as int
    decreases n
  {
    if n > 0 {
      var next := CrashedStart(r, appVersionCode, defaultAppFamily);
      if InitPathOf(r, appVersionCode) == AdoptStored {
        assert next == r;
      } else {
        assert FailedCount(next) as int == FailedCount(r) as int + 1;
      }
      TrustedCrashLoopBounded(next, appVersionCode, defaultAppFamily, n - 1);
    }
  }

  /**
   * An untrusted record stays untrusted when starts die after their first
   * commit, so every one of them resets to the default family again: the
   * attempt bound does not apply to it.
   */
  lemma {:induction false} UntrustedCrashLoopUnbounded(r: Record, appVersionCode: int32, defaultAppFamily: string, n: nat)
    requires RecordUntrusted(r)
    ensures ResetAttempts(r, appVersionCode, defaultAppFamily, n) == n
    ensures RecordUntrusted(CrashLoop(r, appVersionCode, defaultAppFamily, n))
    decreases n
  {
    if n > 0 {
      UntrustedCrashLoopUnbounded(CrashedStart(r, appVersionCode, defaultAppFamily), appVersionCode, defaultAppFamily, n - 1);
    }
  }
}

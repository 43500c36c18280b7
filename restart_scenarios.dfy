/**
 * Two process lifetimes over the same preferences file and device settings,
 * put together from the managers' contracts alone.
 */
module RestartScenarios {
  import opened Wrappers
  import opened DynamicAppManagerPrefs
  import opened ComponentRegistry
  import opened MultiDynamicAppManager

  /**
   * A settled family "a" at version 5; a switch to "b" that stops right after
   * its write-ahead commit leaves only the count behind. Here the registry
   * pass failing stands for the process dying at that point. The next
   * process (whose query answers) finds the count in the retry window,
   * resets to the default family "a" and leaves a settled record again.
   */
  method InterruptedSwitchRecovers() returns (first: Result<RelaunchAction, QueryError>,
                                               outcome: Result<InitOutcome, QueryError>, record: Record)
    ensures first == Failure(PackageNameNotFound)
    ensures outcome == Success(InitOutcome(ResetToDefault, false, false))
    ensures record == SwitchedRecord("a", "", true, 5)
  {
    var prefs := new SharedPreferences(SwitchedRecord("a", "", true, 5));
    var pm := new PackageManager(None, map[]);
    var manager := new MultiDynamicAppManager(prefs, pm, "a", 5);
    var adopted := manager.Initialize();
    assert manager.applicationFamily == "a";
    first := manager.SwitchToAppFamily("b", true, None);
    assert prefs.record.failedToggleAttemptCount == Some(1);

    var restartedPm := new PackageManager(Some(PackageInfo(None, None, None, Some([]))), pm.settings);
    var restarted := new MultiDynamicAppManager(prefs, restartedPm, "a", 5);
    outcome := restarted.Initialize();
    record := prefs.record;
  }
}

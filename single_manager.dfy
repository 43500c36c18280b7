/**
 * The single-family manager, for an application that ships one family only:
 * at startup it puts a stored record that names another family back to the
 * compiled-in family, at most a bounded number of times, and it offers no
 * switching at all.
 */
module SingleDynamicAppManager {
  import opened Wrappers
  import opened KotlinStdlib
  import opened DynamicAppManagerPrefs
  import opened ComponentRegistry
  import opened BaseDynamicAppManager
  import ACM = AppComponentModifier

  /**
   * `initialize` resets when the stored family (the empty string when none is
   * stored) is not the compiled-in one and fewer than the maximum number of
   * attempts have been made.
   */
  predicate NeedsReset(r: Record, appFamily: string) {
    GetString(r.appFamily, "") != appFamily && FailedCount(r) < MAX_FAILED_ATTEMPT_COUNT
  }

  /**
   * The closing edit of a reset, made without clearing the file: five keys
   * written, the format version and the change signal kept as they were.
   */
  function ResetRecord(r: Record, currentAppFamily: string, appFamily: string, appVersionCode: int32): Record {
    r.(appFamily := Some(appFamily),
       expectedAppFamily := Some(appFamily),
       previousAppVersion := Some(appVersionCode),
       failedToggleAttemptCount := Some(0),
       previousAppFamily := Some(currentAppFamily))
  }

  /** The record left by a process whose `initialize` dies right after its first commit. */
  function CrashedStart(r: Record, appFamily: string): Record {
    if NeedsReset(r, appFamily) then AttemptCommitted(r, FailedCount(r)) else r
  }

  class SingleDynamicAppManager {
    const prefs: SharedPreferences
    const pm: PackageManager
    const defaultActivityClassName: string
    /** The one family there is: the compiled-in default. */
    const applicationFamily: string
    /** The version code of the running package. */
    const appVersionCode: int32
    const active: bool

    var failedToggleAttemptCount: int32
    /** Everything this manager did that the outside world can see, in order. */
    ghost var log: seq<Effect>

    constructor (prefs: SharedPreferences, pm: PackageManager, defaultActivityClassName: string,
                 defaultAppFamily: string, appVersionCode: int32)
      ensures this.prefs == prefs && this.pm == pm
      ensures this.defaultActivityClassName == defaultActivityClassName
      ensures applicationFamily == defaultAppFamily && this.appVersionCode == appVersionCode
      ensures !active
      ensures failedToggleAttemptCount == 0 && log == []
    {
      this.prefs := prefs;
      this.pm := pm;
      this.defaultActivityClassName := defaultActivityClassName;
      applicationFamily := defaultAppFamily;
      this.appVersionCode := appVersionCode;
      active := false;
      failedToggleAttemptCount := 0;
      log := [];
    }

    /**
     * `initialize()`: loads the attempt count and, when a reset is due, makes
     * the write-ahead commit, resets every component to its manifest default
     * and writes the compiled-in family back; otherwise it writes nothing.
     */
    method Initialize() returns (r: Result<(), QueryError>)
      modifies this, prefs, pm
      ensures failedToggleAttemptCount == FailedCount(old(prefs.record))
      ensures !NeedsReset(old(prefs.record), applicationFamily) ==>
        r == Success(()) && prefs.record == old(prefs.record) && pm.settings == old(pm.settings) && log == old(log)
      ensures NeedsReset(old(prefs.record), applicationFamily) ==>
        var attempted := AttemptCommitted(old(prefs.record), failedToggleAttemptCount);
        var opening := old(log) + [Commit(attempted), ResetComponents];
        match ACM.ResetSpec(old(pm.settings), pm.packageInfo)
        case Failure(e) =>
          r == Failure(e) && prefs.record == attempted && pm.settings == old(pm.settings) && log == opening
        case Success(a) =>
          var reset := ResetRecord(attempted, GetString(old(prefs.record).appFamily, ""), applicationFamily, appVersionCode);
          r == Success(()) && prefs.record == reset && pm.settings == a.settings && log == opening + [Commit(reset)]
      ensures |log| >= |old(log)|
      ensures FirstCommit(log[|old(log)|..], old(prefs.record)) == CrashedStart(old(prefs.record), applicationFamily)
    {
      var currentAppFamily := GetString(prefs.record.appFamily, "");
      failedToggleAttemptCount := GetInt(prefs.record.failedToggleAttemptCount);
      if currentAppFamily != applicationFamily && failedToggleAttemptCount < MAX_FAILED_ATTEMPT_COUNT {
        prefs.record := AttemptCommitted(prefs.record, failedToggleAttemptCount);
        log := log + [Commit(prefs.record), ResetComponents];
        var reset := ACM.ResetAllComponents(pm);
        if reset.Failure? {
          return Failure(reset.error);
        }
        prefs.record := ResetRecord(prefs.record, currentAppFamily, applicationFamily, appVersionCode);
        log := log + [Commit(prefs.record)];
      }
      return Success(());
    }

    /** `getDefaultActivityClassName()`: the class name given at construction. */
    method GetDefaultActivityClassName() returns (name: Option<string>)
      ensures name == Some(defaultActivityClassName)
    {
      name := Some(defaultActivityClassName);
    }

    // `onEvent`, `returnToDefaultFamily`, `switchToAppFamily` and
    // `consumePendingAppFamilyChangeSignal` do nothing: the record, the
    // registry and the manager are all left as they were.

    method OnEvent(eventName: string)
      ensures unchanged(this, prefs, pm)
    {
    }

    method ReturnToDefaultFamily()
      ensures unchanged(this, prefs, pm)
    {
    }

    method SwitchToAppFamily(appFamily: string, useSwitchActivity: bool, launchIntent: Option<ACM.Intent>)
      ensures unchanged(this, prefs, pm)
    {
    }

    method ConsumePendingAppFamilyChangeSignal()
      ensures unchanged(this, prefs, pm)
    {
    }

    /** `hasPendingAppFamilyChangeSignal()`: there is never a pending change. */
    method HasPendingAppFamilyChangeSignal() returns (pending: bool)
      ensures !pending
    {
      pending := false;
    }
  }

  /** After a completed reset, the next start finds nothing to do. */
  lemma ResetIsFinal(r: Record, appFamily: string, appVersionCode: int32)
    ensures var reset := ResetRecord(AttemptCommitted(r, FailedCount(r)), GetString(r.appFamily, ""), appFamily, appVersionCode);
      !NeedsReset(reset, appFamily) && GetString(reset.appFamily, "") == appFamily && FailedCount(reset) == 0
  {
  }

  /** A record naming another family that has used up its attempts is left as it is. */
  lemma ExhaustedAttemptsAreKept(r: Record, appFamily: string)
    requires FailedCount(r) >= MAX_FAILED_ATTEMPT_COUNT
    ensures !NeedsReset(r, appFamily) && CrashedStart(r, appFamily) == r
  {
  }

  /** The records left by `n` starts in a row that each die right after their first commit. */
  function CrashLoop(r: Record, appFamily: string, n: nat): Record
    decreases n
  {
    if n == 0 then r else CrashLoop(CrashedStart(r, appFamily), appFamily, n - 1)
  }

  /** How many of those `n` starts attempt a reset. */
  function ResetAttempts(r: Record, appFamily: string, n: nat): nat
    decreases n
  {
    if n == 0 then 0
    else (if NeedsReset(r, appFamily) then 1 else 0) + ResetAttempts(CrashedStart(r, appFamily), appFamily, n - 1)
  }

  /**
   * However many starts die in the middle of a reset, at most
   * `MAX_FAILED_ATTEMPT_COUNT` of them attempt one, counted from a
   * non-negative stored count.
   */
  lemma {:induction false} CrashLoopBounded(r: Record, appFamily: string, n: nat)
    requires FailedCount(r) >= 0
    ensures FailedCount(r) < MAX_FAILED_ATTEMPT_COUNT ==>
      ResetAttempts(r, appFamily, n) <= (MAX_FAILED_ATTEMPT_COUNT - FailedCount(r)) as int
    ensures FailedCount(r) >= MAX_FAILED_ATTEMPT_COUNT ==> ResetAttempts(r, appFamily, n) == 0
    ensures ResetAttempts(r, appFamily, n) <= MAX_FAILED_ATTEMPT_COUNT as int
    decreases n
  {
    if n > 0 {
      var next := CrashedStart(r, appFamily);
      if NeedsReset(r, appFamily) {
        assert FailedCount(next) as int == FailedCount(r) as int + 1;
      } else {
        assert next == r;
      }
      CrashLoopBounded(next, appFamily, n - 1);
    }
  }

  /** A record that needs no reset is left alone by any number of starts. */
  lemma {:induction false} SettledStaysSettled(r: Record, appFamily: string, n: nat)
    requires !NeedsReset(r, appFamily)
    ensures CrashLoop(r, appFamily, n) == r
    decreases n
  {
    if n > 0 {
      assert CrashedStart(r, appFamily) == r;
      SettledStaysSettled(r, appFamily, n - 1);
    }
  }

  /**
   * Once enough starts have died in the middle of a reset to use up the
   * remaining attempts, the record needs no reset any more.
   */
  lemma {:induction false} CrashLoopSettles(r: Record, appFamily: string, n: nat)
    requires FailedCount(r) >= 0
    requires n as int >= (MAX_FAILED_ATTEMPT_COUNT - FailedCount(r)) as int
    ensures !NeedsReset(CrashLoop(r, appFamily, n), appFamily)
    decreases n
  {
    if !NeedsReset(r, appFamily) {
      SettledStaysSettled(r, appFamily, n);
    } else {
      var next := CrashedStart(r, appFamily);
      assert FailedCount(next) as int == FailedCount(r) as int + 1;
      CrashLoopSettles(next, appFamily, n - 1);
    }
  }
}

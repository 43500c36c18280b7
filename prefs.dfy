/**
 * The durable record both managers keep in the `dynamicAppConfig` shared
 * preferences file: seven keys, each either absent or holding a value.
 */
module DynamicAppManagerPrefs {
  import opened Wrappers
  import opened KotlinStdlib

  const DYNAMIC_APP_CONFIG: string := "dynamicAppConfig"
  const SYSTEM_VERSION_KEY: string := "systemVersion"
  const APP_FAMILY_CHANGE_SIGNAL_KEY: string := "appFamilyChangeSignal"
  const APP_FAMILY_KEY: string := "appFamily"
  const EXPECTED_APP_FAMILY_KEY: string := "expectedAppFamily"
  const PREVIOUS_APP_FAMILY_KEY: string := "previousAppFamily"
  const PREVIOUS_VERSION_KEY: string := "previousAppVersion"
  const FAILED_TOGGLE_ATTEMPT_COUNT_KEY: string := "failedToggleAttemptCount"

  /** Every key of the record. */
  const ALL_KEYS: set<string> := {
    SYSTEM_VERSION_KEY, APP_FAMILY_CHANGE_SIGNAL_KEY, APP_FAMILY_KEY,
    EXPECTED_APP_FAMILY_KEY, PREVIOUS_APP_FAMILY_KEY, PREVIOUS_VERSION_KEY,
    FAILED_TOGGLE_ATTEMPT_COUNT_KEY }

  /** The contents of the preferences file; `None` is a key that is not stored. */
  datatype Record = Record(
    systemVersion: Option<int32>,
    appFamilyChangeSignal: Option<bool>,
    appFamily: Option<string>,
    expectedAppFamily: Option<string>,
    previousAppFamily: Option<string>,
    previousAppVersion: Option<int32>,
    failedToggleAttemptCount: Option<int32>)

  /** A preferences file that holds nothing: the first run, or one right after `clear()`. */
  const EMPTY: Record := Record(None, None, None, None, None, None, None)

  /** The keys that hold a value. */
  function PresentKeys(r: Record): (keys: set<string>)
    ensures keys <= ALL_KEYS
    ensures r == EMPTY <==> keys == {}
    ensures APP_FAMILY_KEY in keys <==> r.appFamily.Some?
    ensures FAILED_TOGGLE_ATTEMPT_COUNT_KEY in keys <==> r.failedToggleAttemptCount.Some?
  {
    (if r.systemVersion.Some? then {SYSTEM_VERSION_KEY} else {}) +
    (if r.appFamilyChangeSignal.Some? then {APP_FAMILY_CHANGE_SIGNAL_KEY} else {}) +
    (if r.appFamily.Some? then {APP_FAMILY_KEY} else {}) +
    (if r.expectedAppFamily.Some? then {EXPECTED_APP_FAMILY_KEY} else {}) +
    (if r.previousAppFamily.Some? then {PREVIOUS_APP_FAMILY_KEY} else {}) +
    (if r.previousAppVersion.Some? then {PREVIOUS_VERSION_KEY} else {}) +
    (if r.failedToggleAttemptCount.Some? then {FAILED_TOGGLE_ATTEMPT_COUNT_KEY} else {})
  }

  // The readers, with the defaults the managers pass: getInt(key, 0),
  // getBoolean(key, false), getString(key, null) or getString(key, "").

  /** `getInt(key, 0)`: the stored number, or 0 when the key is absent. */
  function GetInt(v: Option<int32>): (n: int32)
    ensures v.Some? ==> n == v.value
    ensures v.None? ==> n == 0
  {
    v.GetOr(0)
  }

  /** `getBoolean(key, false)`: the stored flag, or false when the key is absent. */
  function GetBoolean(v: Option<bool>): (b: bool)
    ensures v.Some? ==> b == v.value
    ensures v.None? ==> !b
  {
    v.GetOr(false)
  }

  /** `getString(key, default)`: the stored string, or `default` when the key is absent. */
  function GetString(v: Option<string>, default: string): (s: string)
    ensures v.Some? ==> s == v.value
    ensures v.None? ==> s == default
  {
    v.GetOr(default)
  }

  /** The stored attempt count, 0 when absent. */
  function FailedCount(r: Record): int32 {
    GetInt(r.failedToggleAttemptCount)
  }

  /**
   * The application's preferences file. Each edit the managers make is one
   * atomic replacement of `record`: `commit()` and `apply()` are both
   * modelled as taking effect at once.
   */
  class SharedPreferences {
    var record: Record

    constructor (stored: Record)
      ensures record == stored
    {
      record := stored;
    }
  }
}

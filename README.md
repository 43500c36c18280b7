# Stuffing app-family switching, modelled in Dafny

Stuffing packs several "app families" into one Android package. Only the
components (activities, services, receivers, providers) of the active family
are enabled in the package manager's component registry. This project models
and verifies three parts of the library:

- **`MultiDynamicAppManager`**: the startup reconciliation (`initialize`) of a
  small durable preferences record with the registry, and the write-ahead
  family switch (`setCurrentAppFamily`). A switch goes:
  1. the hook call;
  2. a committed attempt count;
  3. the registry pass;
  4. a cleared and fully rewritten record.

  After a crash between steps 2 and 4, the next start resets to the default
  family, provided this session's `initialize` loaded a count of 0..2 (see
  below for a larger count). On a trusted record (format version 2 and a non-empty family) this
  happens at most three times in a row; on an untrusted one it happens on
  every start.
- **`AppComponentModifier`**: how a component's `appFamilies` meta-data is
  parsed, and which registry state each component gets (enabled, disabled or
  default). It also covers the change flag computed from actual transitions,
  the "ever modified" marker service, and the lookup of a family's main
  activity, where the last match wins.
- **`SingleDynamicAppManager`**: the one-family variant. Its `initialize` puts
  a record naming another family back, at most three times; every switching
  operation is a no-op.

Layout, one module per file:

| file | module | contents |
|---|---|---|
| `wrappers.dfy` | `Wrappers` | `Option`, `Result` |
| `kotlin_stdlib.dfy` | `KotlinStdlib` | Kotlin `Int` as `int32` with wrap-around on `+ 1`; `split`, `trim`, `toLowerCase` |
| `prefs.dfy` | `DynamicAppManagerPrefs` | the key names; the record as a datatype of optional values; the readers with the defaults the code passes; the `SharedPreferences` object |
| `component_registry.dfy` | `ComponentRegistry` | component declarations, package info, the `PackageManager` object holding the enabled settings |
| `app_component_modifier.dfy` | `AppComponentModifier` | the pure rules, their specification functions and lemmas, and the two imperative passes (`for` loops over the package manager) |
| `base_manager.dfy` | `BaseDynamicAppManager` | `MAX_FAILED_ATTEMPT_COUNT`, the observable effect log, the write-ahead edit |
| `multi_manager.dfy` | `MultiDynamicAppManager` | the manager class, the record transitions and the restart lemmas |
| `single_manager.dfy` | `SingleDynamicAppManager` | the single-family class and its restart lemmas |
| `restart_scenarios.dfy` | `RestartScenarios` | two process lifetimes composed from the method contracts alone |

Modelling choices:

- Each manager is a `class` with the source's mutable fields. The preferences
  file and the package manager are separate objects in its `modifies` clauses,
  so a new manager built over the same two objects is a restarted process.
- A ghost `log` records every step the outside world can see, in order:
  - the hook call;
  - each committed edit, with the whole record it leaves;
  - each registry pass.

  The method contracts state the exact log. `FirstCommit` reads off the record
  a process leaves when it dies right after its first commit. `CrashedStart`
  is that record as a function of the stored record, and the `Initialize`
  contracts connect the two.
- A failed package query throws `RuntimeException` in the source. A `null`
  activity array throws `NullPointerException` where it is spread into a list.
  Both are modelled as `Result.Failure`. The exception propagates, so the
  caller stops at that point. After a failed registry pass, the record is
  exactly the write-ahead record, the same state a crash at that point leaves.
  In the multi-family manager the source queries the package once before
  any write, for the version code (see "Left out"). A failed registry pass
  in the model therefore stands for a process that dies after the
  write-ahead commit, or for a package that stops answering mid-process.
- Clocks, the process and the launch APIs are not modelled. The relaunch
  choice of `switchToAppFamily` is returned as a value: `BeginSwitch(intent?)`,
  `EndSwitch(intent)` or `Rebirth`.

Behaviour worth knowing, all proved here:

- The in-memory attempt count is loaded only by `initialize`. Every later
  switch in the session writes *loaded count + 1*. So a session that loaded
  a count of 3 or more commits 4 or more before each switch. If it dies after
  that commit, the next start does not reset a trusted record. With the same
  version and matching families it adopts the record, although the registry
  may be half switched (`StaleCountCrashSkipsReset`, `StaleCountExample`).
- `switchToAppFamily` ignores whether the switch changed anything. A request
  for the active family still returns a relaunch action.
- On a trusted record, crashes after the write-ahead commit cause at most
  three resets (`TrustedCrashLoopBounded`). On an untrusted record the bound
  does not apply: every start resets again (`UntrustedCrashLoopUnbounded`).
  An untrusted record has the wrong format version or no family.
- Meta-data holding the empty string gives the one tag `""`. Such a component
  counts as tagged and is disabled for every non-empty family
  (`EmptyTagDisables`).
- `returnToDefaultFamily` switches to the default family (not as a
  first-time assignment) and requests no relaunch. It does not go through
  `switchToAppFamily`'s relaunch dispatch. The model follows the code here
  (`MultiDynamicAppManager.kt:87-91`).

## Model

| member | source | states |
|---|---|---|
| KotlinStdlib.Inc | core/src/main/java/com/snap/stuffing/lib/MultiDynamicAppManager.kt:141 | `count + 1` on a Kotlin `Int`: exact below `Int.MAX_VALUE`, wraps to `Int.MIN_VALUE` at the top |
| KotlinStdlib.Split | core/src/main/java/com/snap/stuffing/lib/AppComponentModifier.kt:84 | `split(',')` gives at least one piece; no piece contains the delimiter; there is a single piece exactly when the delimiter does not occur |
| KotlinStdlib.JoinSplit | core/src/main/java/com/snap/stuffing/lib/AppComponentModifier.kt:84 | joining the pieces of `split` with the delimiter gives back the meta-data string: `split` loses nothing |
| KotlinStdlib.SplitJoin | core/src/main/java/com/snap/stuffing/lib/AppComponentModifier.kt:84 | delimiter-free pieces joined and split again come back unchanged (empty pieces included) |
| KotlinStdlib.Trim | core/src/main/java/com/snap/stuffing/lib/AppComponentModifier.kt:84 | `trim()` has no whitespace at either end and is the contiguous slice of the input that starts where `trimStart` stops |
| KotlinStdlib.TrimDropsWhitespace | core/src/main/java/com/snap/stuffing/lib/AppComponentModifier.kt:84 | every character `trim()` removes, at either end, is whitespace |
| KotlinStdlib.TrimIdempotent | core/src/main/java/com/snap/stuffing/lib/AppComponentModifier.kt:84 | trimming a trimmed tag changes nothing |
| KotlinStdlib.ToLower | core/src/main/java/com/snap/stuffing/lib/AppComponentModifier.kt:84 | `toLowerCase()` keeps the length, maps each character through the ASCII lower-case map, and leaves no upper-case letter |
| KotlinStdlib.ToLowerIdempotent | core/src/main/java/com/snap/stuffing/lib/AppComponentModifier.kt:87 | lower-casing a lower-cased family changes nothing, so comparing lower-cased tags with a lower-cased family is consistent |
| DynamicAppManagerPrefs.PresentKeys | core/src/main/java/com/snap/stuffing/lib/DynamicAppManagerPrefs.kt:8-14 | the keys holding a value are among the seven keys; there are none exactly for the empty (cleared) record |
| DynamicAppManagerPrefs.GetInt | core/src/main/java/com/snap/stuffing/lib/MultiDynamicAppManager.kt:42-45 | `getInt(key, 0)` gives the stored number, and 0 when the key is absent |
| DynamicAppManagerPrefs.GetBoolean | core/src/main/java/com/snap/stuffing/lib/MultiDynamicAppManager.kt:39 | `getBoolean(key, false)` gives the stored flag, and false when the key is absent |
| DynamicAppManagerPrefs.GetString | core/src/main/java/com/snap/stuffing/lib/SingleDynamicAppManager.kt:25 | `getString(key, default)` gives the stored string, and the caller's default (`""` or `null`) when the key is absent |
| ComponentRegistry.PackageManager.SetComponentEnabledSetting | core/src/main/java/com/snap/stuffing/lib/AppComponentModifier.kt:201-204 | the host's write sets exactly the one component's setting |
| ComponentRegistry.PackageManager.GetComponentEnabledSetting | core/src/main/java/com/snap/stuffing/lib/AppComponentModifier.kt:198 | the host's read gives the component's stored setting, and DEFAULT for a component never set |
| AppComponentModifier.ListComponents | core/src/main/java/com/snap/stuffing/lib/AppComponentModifier.kt:147-160 | fails exactly when the package query fails; otherwise it lists services, receivers, providers and activities, with a `null` array contributing nothing |
| AppComponentModifier.ListActivities | core/src/main/java/com/snap/stuffing/lib/AppComponentModifier.kt:162-167 | fails when the package query fails or the activity array is `null`; otherwise it gives the activities |
| AppComponentModifier.ParseAppFamilies | core/src/main/java/com/snap/stuffing/lib/AppComponentModifier.kt:83-84 | no meta-data gives no tags, and only then; otherwise there is one tag per `split` piece, each free of ',', trimmed and lower-case |
| AppComponentModifier.ParseAppFamiliesPieces | core/src/main/java/com/snap/stuffing/lib/AppComponentModifier.kt:84 | there are as many tags as `split` pieces, and tag `i` is piece `i` trimmed and then lower-cased |
| AppComponentModifier.ParseAppFamiliesMembers | core/src/main/java/com/snap/stuffing/lib/AppComponentModifier.kt:84-87 | a string is a tag exactly when some piece of the meta-data trims and lower-cases to it |
| AppComponentModifier.LowerTag | core/src/main/java/com/snap/stuffing/lib/AppComponentModifier.kt:84 | a trimmed and lower-cased piece stays free of ',' |
| AppComponentModifier.TargetState | core/src/main/java/com/snap/stuffing/lib/AppComponentModifier.kt:86-96 | a component goes to DEFAULT exactly when it has no `appFamilies` meta-data; otherwise it goes to ENABLED or DISABLED, never to another state |
| AppComponentModifier.TargetStateCases | core/src/main/java/com/snap/stuffing/lib/AppComponentModifier.kt:86-96 | a tagged component goes to ENABLED exactly when the lower-cased family is among its tags, and to DISABLED exactly when it is not |
| AppComponentModifier.TargetStateIgnoresCase | core/src/main/java/com/snap/stuffing/lib/AppComponentModifier.kt:87 | families equal up to ASCII case give every component the same state |
| AppComponentModifier.EmptyTagDisables | core/src/main/java/com/snap/stuffing/lib/AppComponentModifier.kt:83-92 | meta-data holding "" gives the tag list `[""]`, which disables the component for any non-empty family |
| AppComponentModifier.TaggedExample | core/src/main/java/com/snap/stuffing/lib/AppComponentModifier.kt:83-93 | a component tagged "A, B" is enabled for "b" and disabled for "C" |
| AppComponentModifier.ExampleTags | core/src/main/java/com/snap/stuffing/lib/AppComponentModifier.kt:83-84 | "A, B" parses to the tags "a" and "b" |
| AppComponentModifier.ApplyUnchanged | core/src/main/java/com/snap/stuffing/lib/AppComponentModifier.kt:196-211 | a pass that reports no change leaves every setting as it was |
| AppComponentModifier.ApplyFinal | core/src/main/java/com/snap/stuffing/lib/AppComponentModifier.kt:196-211 | after a pass with one write per component, each written component holds its value and every other component keeps its setting. Component names are distinct, as in any manifest. |
| AppComponentModifier.ApplyChangedIff | core/src/main/java/com/snap/stuffing/lib/AppComponentModifier.kt:80-100 | the accumulated change flag is true exactly when some component's setting differed from its target before the pass. Component names are distinct, as in any manifest. |
| AppComponentModifier.ApplyIdempotent | core/src/main/java/com/snap/stuffing/lib/AppComponentModifier.kt:196-211 | repeating a pass changes nothing and reports no change. Component names are distinct, as in any manifest. |
| AppComponentModifier.SwitchTargets | core/src/main/java/com/snap/stuffing/lib/AppComponentModifier.kt:82-97 | one write per listed component, in list order, each to the state its tags give it |
| AppComponentModifier.ResetTargets | core/src/main/java/com/snap/stuffing/lib/AppComponentModifier.kt:114-117 | one write per listed component, in list order, each to DEFAULT |
| AppComponentModifier.SwitchSpec | core/src/main/java/com/snap/stuffing/lib/AppComponentModifier.kt:77-103 | `switchToAppFamily` fails exactly when the package query fails |
| AppComponentModifier.ResetSpec | core/src/main/java/com/snap/stuffing/lib/AppComponentModifier.kt:109-123 | `resetAllComponents` fails exactly when the package query fails |
| AppComponentModifier.SwitchSettles | core/src/main/java/com/snap/stuffing/lib/AppComponentModifier.kt:77-103 | afterwards each listed component holds its target state and every unlisted one is untouched; the result is true exactly when some listed component was in another state. Component names are distinct, as in any manifest. |
| AppComponentModifier.SwitchIdempotent | core/src/main/java/com/snap/stuffing/lib/AppComponentModifier.kt:77-103 | a second identical switch, with nothing changed in between, returns false and writes nothing. Component names are distinct, as in any manifest. |
| AppComponentModifier.ResetSettles | core/src/main/java/com/snap/stuffing/lib/AppComponentModifier.kt:109-123 | afterwards every listed component is at DEFAULT and the others are untouched; the result is true exactly when some listed component was not at DEFAULT. Component names are distinct, as in any manifest. |
| AppComponentModifier.SwitchMarksModified | core/src/main/java/com/snap/stuffing/lib/AppComponentModifier.kt:59-63 | a switch to a family that does not tag the marker service leaves the registry reading as modified. Component names are distinct, as in any manifest. |
| AppComponentModifier.ResetClearsModified | core/src/main/java/com/snap/stuffing/lib/AppComponentModifier.kt:59-63 | a reset leaves the registry reading as never modified. Component names are distinct, as in any manifest. |
| AppComponentModifier.LastMainIndex | core/src/main/java/com/snap/stuffing/lib/AppComponentModifier.kt:66-68 | `findLast`: the index found matches and no later activity matches; none is found exactly when no activity matches |
| AppComponentModifier.GetMainActivityForAppFamily | core/src/main/java/com/snap/stuffing/lib/AppComponentModifier.kt:65-69 | the family's main activity is the last activity whose whole `mainForAppFamilies` value equals the family up to case; it is absent when none does; the call fails exactly when listing activities fails |
| AppComponentModifier.GetDefaultActivityClassNameForAppFamily | core/src/main/java/com/snap/stuffing/lib/AppComponentModifier.kt:36-38 | the class name is the `name` of the family's main activity, and `null` exactly when the family has none; failures propagate |
| AppComponentModifier.GetLaunchIntentForAppFamily | core/src/main/java/com/snap/stuffing/lib/AppComponentModifier.kt:45-51 | the intent is `null` exactly when there is no main activity; otherwise it targets that activity and carries no extras |
| AppComponentModifier.CheckComponentListModifiedState | core/src/main/java/com/snap/stuffing/lib/AppComponentModifier.kt:59-63 | true exactly when the `StateTrackingService` component is not at DEFAULT |
| AppComponentModifier.SetComponentEnabledSetting | core/src/main/java/com/snap/stuffing/lib/AppComponentModifier.kt:196-212 | writes only when the current setting differs and returns true exactly then; afterwards the component holds the value |
| AppComponentModifier.SwitchToAppFamily | core/src/main/java/com/snap/stuffing/lib/AppComponentModifier.kt:77-103 | the loop's result and new settings are those of `SwitchSpec`; on a failed query nothing is written |
| AppComponentModifier.ResetAllComponents | core/src/main/java/com/snap/stuffing/lib/AppComponentModifier.kt:109-123 | the loop's result and new settings are those of `ResetSpec`; on a failed query nothing is written |
| MultiDynamicAppManager.MultiDynamicAppManager.constructor | core/src/main/java/com/snap/stuffing/lib/MultiDynamicAppManager.kt:31-35 | a new manager is active, with the empty family, no signal and a zero count |
| MultiDynamicAppManager.MultiDynamicAppManager.Initialize | core/src/main/java/com/snap/stuffing/lib/MultiDynamicAppManager.kt:38-79 | loads the signal and the count, then takes the path `InitPathOf` gives: a reset (a full switch to the default family, with rebirth exactly when the registry was modified before and is changed again) or a refresh, and writes nothing when adopting; details below |
| MultiDynamicAppManager.MultiDynamicAppManager.GetDefaultActivityClassName | core/src/main/java/com/snap/stuffing/lib/MultiDynamicAppManager.kt:85 | the main-activity class name of the active family |
| MultiDynamicAppManager.MultiDynamicAppManager.ReturnToDefaultFamily | core/src/main/java/com/snap/stuffing/lib/MultiDynamicAppManager.kt:87-91 | nothing happens when the default family is already active; otherwise it is the full switch to the default family, not as a first-time assignment |
| MultiDynamicAppManager.MultiDynamicAppManager.SwitchToAppFamily | core/src/main/java/com/snap/stuffing/lib/MultiDynamicAppManager.kt:93-117 | switches (or finds the family already active), then returns `BeginSwitch(intent?)`, `EndSwitch(intent)` or `Rebirth` for the family's launch intent with the caller's extras; failures propagate; details below |
| MultiDynamicAppManager.MultiDynamicAppManager.HasPendingAppFamilyChangeSignal | core/src/main/java/com/snap/stuffing/lib/MultiDynamicAppManager.kt:119 | returns the session's signal, as loaded by `initialize` or cleared by consume |
| MultiDynamicAppManager.MultiDynamicAppManager.ConsumePendingAppFamilyChangeSignal | core/src/main/java/com/snap/stuffing/lib/MultiDynamicAppManager.kt:121-126 | clears the signal in memory and writes `false` to the record; nothing else changes |
| MultiDynamicAppManager.MultiDynamicAppManager.SetCurrentAppFamily | core/src/main/java/com/snap/stuffing/lib/MultiDynamicAppManager.kt:128-161 | for the active family: false and no effect at all; otherwise the hook, the committed count + 1, the registry pass, then the fully rewritten record and the new family, in that order; details below |
| MultiDynamicAppManager.MultiDynamicAppManager.PassAndCommitSwitch | core/src/main/java/com/snap/stuffing/lib/MultiDynamicAppManager.kt:144-160 | after the write-ahead commit: the registry pass; if it throws, nothing else changes; otherwise the record becomes exactly the seven switch keys and the in-memory family the target, and the result is the pass's change flag |
| MultiDynamicAppManager.MultiDynamicAppManager.RefreshManifestComponentsOnInconsistency | core/src/main/java/com/snap/stuffing/lib/MultiDynamicAppManager.kt:167-181 | commits loaded count + 1, re-applies the active family, then rewrites only `expectedAppFamily`, `previousAppVersion` and the count; the family and signal are unchanged |
| MultiDynamicAppManager.MultiDynamicAppManager.CommitAttempt | core/src/main/java/com/snap/stuffing/lib/MultiDynamicAppManager.kt:140-142 | the write-ahead edit sets the count to in-memory count + 1 and touches no other key |
| MultiDynamicAppManager.MultiDynamicAppManager.CommitSwitch | core/src/main/java/com/snap/stuffing/lib/MultiDynamicAppManager.kt:148-157 | the closing edit of a switch replaces the whole record with exactly the seven keys |
| MultiDynamicAppManager.ResetPathIff | core/src/main/java/com/snap/stuffing/lib/MultiDynamicAppManager.kt:54-55 | `initialize` resets exactly when the format version is not 2, the family is null or empty, or the count is in 1..3; a trusted record with count 0 or above 3 does not reset |
| MultiDynamicAppManager.InitPathOf | core/src/main/java/com/snap/stuffing/lib/MultiDynamicAppManager.kt:54-74 | the reset path is taken exactly for an untrusted record or a count in the retry window; the stored family is adopted only when the version is unchanged and the family is the expected one |
| MultiDynamicAppManager.MergeExtras | core/src/main/java/com/snap/stuffing/lib/MultiDynamicAppManager.kt:98-102 | the relaunch intent keeps its target; it takes the caller's extras when the caller's intent has some, and is otherwise unchanged |
| MultiDynamicAppManager.RefreshPathIff | core/src/main/java/com/snap/stuffing/lib/MultiDynamicAppManager.kt:63-74 | off the reset path: refresh for a version change exactly when the version differs; refresh for a family mismatch exactly when the version is the same and the family is not the expected one; otherwise adopt |
| MultiDynamicAppManager.CrashAfterWriteAheadResets | core/src/main/java/com/snap/stuffing/lib/MultiDynamicAppManager.kt:140-145 | dying after the write-ahead commit, from a loaded count of 0..2, sends the next start down the reset path |
| MultiDynamicAppManager.StaleCountCrashSkipsReset | core/src/main/java/com/snap/stuffing/lib/MultiDynamicAppManager.kt:45-74 | dying after a write-ahead commit made from a loaded count of 3 or more leaves a trusted record off the reset path; with the same version and matching families the next start adopts it |
| MultiDynamicAppManager.StaleCountExample | core/src/main/java/com/snap/stuffing/lib/MultiDynamicAppManager.kt:140-142 | a switched record for "a" at version 5, committed again from a loaded count of 3, is adopted at version 5 |
| MultiDynamicAppManager.SwitchedRecordIsSettled | core/src/main/java/com/snap/stuffing/lib/MultiDynamicAppManager.kt:148-157 | a completed switch leaves all seven keys, family = expected family, count 0 and signal = not first time; the next start at the same version adopts it |
| MultiDynamicAppManager.RefreshedRecordIsSettled | core/src/main/java/com/snap/stuffing/lib/MultiDynamicAppManager.kt:176-180 | a completed refresh leaves the family, the previous family, the signal and the format version as they were, and the next start at the same version adopts the record |
| MultiDynamicAppManager.VersionUpgradeExample | core/src/main/java/com/snap/stuffing/lib/MultiDynamicAppManager.kt:66-74 | a settled record from version 1, started at version 2, takes the version-change refresh and settles at version 2 |
| MultiDynamicAppManager.ConsumedSignalStaysFalse | core/src/main/java/com/snap/stuffing/lib/MultiDynamicAppManager.kt:121-126 | once consumed, the signal loads as false after any write-ahead edit or refresh; only a non-first-time switch sets it again |
| MultiDynamicAppManager.TrustedCrashLoopBounded | core/src/main/java/com/snap/stuffing/lib/MultiDynamicAppManager.kt:54-55 | on a trusted record, with a non-empty default family, however many starts die after their first commit, at most three take the reset path (as long as the count cannot wrap) |
| MultiDynamicAppManager.UntrustedCrashLoopUnbounded | core/src/main/java/com/snap/stuffing/lib/MultiDynamicAppManager.kt:54-55 | on an untrusted record, every one of `n` starts that die after their first commit takes the reset path, and the record stays untrusted |
| SingleDynamicAppManager.SingleDynamicAppManager.constructor | core/src/main/java/com/snap/stuffing/lib/SingleDynamicAppManager.kt:13-20 | the manager is never active; its family and default activity are the constructor values |
| SingleDynamicAppManager.SingleDynamicAppManager.Initialize | core/src/main/java/com/snap/stuffing/lib/SingleDynamicAppManager.kt:24-48 | resets exactly when the stored family differs and the count is below 3: count + 1 committed, all components reset, five keys written without clearing; otherwise writes nothing; details below |
| SingleDynamicAppManager.SingleDynamicAppManager.GetDefaultActivityClassName | core/src/main/java/com/snap/stuffing/lib/SingleDynamicAppManager.kt:22 | always the class name given at construction |
| SingleDynamicAppManager.SingleDynamicAppManager.HasPendingAppFamilyChangeSignal | core/src/main/java/com/snap/stuffing/lib/SingleDynamicAppManager.kt:56 | never a pending change |
| SingleDynamicAppManager.ResetIsFinal | core/src/main/java/com/snap/stuffing/lib/SingleDynamicAppManager.kt:40-46 | after a completed reset the stored family is the compiled one with count 0, so the next `initialize` does nothing |
| SingleDynamicAppManager.SingleDynamicAppManager.OnEvent | core/src/main/java/com/snap/stuffing/lib/SingleDynamicAppManager.kt:50 | changes neither the record, the registry nor the manager |
| SingleDynamicAppManager.SingleDynamicAppManager.ReturnToDefaultFamily | core/src/main/java/com/snap/stuffing/lib/SingleDynamicAppManager.kt:52 | changes neither the record, the registry nor the manager |
| SingleDynamicAppManager.SingleDynamicAppManager.SwitchToAppFamily | core/src/main/java/com/snap/stuffing/lib/SingleDynamicAppManager.kt:54 | changes neither the record, the registry nor the manager, whatever family is asked for |
| SingleDynamicAppManager.SingleDynamicAppManager.ConsumePendingAppFamilyChangeSignal | core/src/main/java/com/snap/stuffing/lib/SingleDynamicAppManager.kt:58 | changes neither the record, the registry nor the manager |
| SingleDynamicAppManager.ExhaustedAttemptsAreKept | core/src/main/java/com/snap/stuffing/lib/SingleDynamicAppManager.kt:33 | with a count of 3 or more there is no reset, even on a mismatch, and a start leaves the record as it is |
| SingleDynamicAppManager.SettledStaysSettled | core/src/main/java/com/snap/stuffing/lib/SingleDynamicAppManager.kt:33 | a record that needs no reset is left unchanged by any number of starts |
| SingleDynamicAppManager.CrashLoopBounded | core/src/main/java/com/snap/stuffing/lib/SingleDynamicAppManager.kt:33-36 | from a non-negative count, at most 3 − count starts (and never more than 3) attempt a reset, however many of them die after their first commit |
| SingleDynamicAppManager.CrashLoopSettles | core/src/main/java/com/snap/stuffing/lib/SingleDynamicAppManager.kt:33-36 | once 3 − count starts have died after their first commit, no further reset is attempted |
| RestartScenarios.InterruptedSwitchRecovers | core/src/main/java/com/snap/stuffing/lib/MultiDynamicAppManager.kt:54-57 | a switch that stops after its write-ahead commit (here through a failed registry pass) leaves count 1; the next process resets to the default family and leaves a settled record |

The contracts of the four largest methods, in full:

- **`MultiDynamicAppManager.Initialize`**
  - It loads the change signal and the count.
  - It takes the path `InitPathOf` gives.
  - On the reset path it performs the full switch to the default family, with
    first time = no earlier modification. The stored signal then equals
    "modified before", and a rebirth is requested exactly when the registry
    was modified before and the reset changed it again.
  - On the accept path the stored family becomes active. At most one refresh
    runs, and `AdoptStored` writes nothing.
  - The first record a fresh process commits is `CrashedStart`.
- **`MultiDynamicAppManager.SwitchToAppFamily`**
  - Nothing happens when the family is already active. Otherwise it performs
    the full switch, not as a first-time assignment.
  - Unless the switch threw, it looks up the family's launch intent, with the
    caller's extras merged in.
  - It returns `BeginSwitch(intent?)` with the switch activity. Without it, it
    returns `EndSwitch(intent)` when an intent was found, and `Rebirth` when
    none was.
- **`MultiDynamicAppManager.SetCurrentAppFamily`**
  - When the family is already active, it returns false and does nothing at
    all: no hook call, no write, no registry call.
  - Otherwise it takes these steps, in order:
    1. the hook call (old, new);
    2. a commit of in-memory count + 1;
    3. the registry pass;
    4. the cleared record with exactly seven keys (family = expected = target,
       previous = old family, signal = not first time, running version,
       format 2, count 0).

    The in-memory family then becomes the target. If the registry pass
    throws, it stops after step 3.
- **`SingleDynamicAppManager.Initialize`**
  - It resets exactly when the stored family (default "") is not the compiled
    one and the count is below 3. Otherwise it writes nothing.
  - A reset commits count + 1, then resets every component. It then writes
    family = expected = compiled, the previous family, the running version
    and count 0, without clearing the record.
  - The first record committed is `CrashedStart`.

## Left out

- `onEvent` of the multi-family manager runs a caller-supplied `Runnable` looked up by name. The callbacks are foreign code with no state here; the single-family `OnEvent` is a no-op and is kept.
- The relaunch mechanics are not modelled: `AppSwitcher`, `AppSwitchActivity`, `ProcessPhoenix.triggerRebirth` and the restart activity's signal-or-timeout race. The manager returns which relaunch it asks for.
- Intent flags (`FLAG_ACTIVITY_NEW_TASK`, `FLAG_ACTIVITY_CLEAR_TASK`) and the inside of a `Bundle` are not modelled. `putExtras` into a fresh main-activity intent is modelled as giving it the caller's extras.
- Logging, `printComponentEnabledStates` and `convertEnabledSettingToString` are diagnostics only.
- `SharedPreferences` durability is not modelled. `commit()` and `apply()` are both modelled as an atomic replacement of the record, although consume uses the asynchronous `apply()` (`MultiDynamicAppManager.kt:125`). Threading is not modelled.
- KotlinStdlib.ToLower: lower-cases only ASCII letters. Locale-dependent and non-ASCII case mapping is not modelled.
- Meta-data values that are not strings, where `Bundle.getString` gives `null`, are modelled as absent meta-data.
- The package manager's `DONT_KILL_APP` flag, the query flags and the `ComponentName` package part are not modelled. Components are identified by class name within the one package.
- The Dagger wiring, the activity launcher, the `api/` interfaces and the sample application are outside the modelled core.
- MultiDynamicAppManager.MultiDynamicAppManager.Initialize: the running version code is a constant given at construction. In the source it is read lazily from a package-info query (`BaseDynamicAppManager.kt:23-24`), first forced by the log line at `MultiDynamicAppManager.kt:47-52`, before any write. A failed package query therefore throws there, leaving the record untouched; the model instead goes on and fails only at the registry pass.
- MultiDynamicAppManager.MultiDynamicAppManager.SetCurrentAppFamily: exceptions from the caller's `AppSwitchHook.preAppFamilySwitch` (`MultiDynamicAppManager.kt:138`) are not modelled; the hook always returns. A throwing hook would end the switch before the write-ahead commit. The version-code query at `:135` is not modelled either, as for `Initialize`.
- RestartScenarios.InterruptedSwitchRecovers: the failed registry pass in the first process stands for a process that dies right after the write-ahead commit. With a package query that fails from the start, the source would throw earlier, at the version-code read in `initialize`.
- MultiDynamicAppManager.TrustedCrashLoopBounded: assumes the count cannot wrap within the starts considered (count + n ≤ `Int.MAX_VALUE`), because `Inc` wraps around at the top of the range. It also assumes a non-empty default family. With an empty default, a fresh process's reset finds the family already active, writes nothing, and so a record in the retry window resets on every start.
- The registry-pass lemmas (`ApplyFinal`, `ApplyChangedIff`, `ApplyIdempotent`, `SwitchSettles`, `SwitchIdempotent`, `ResetSettles`, `SwitchMarksModified`, `ResetClearsModified`) assume distinct component class names. The package manager guarantees this for one package's manifest, and the model does not derive it.

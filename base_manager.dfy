/** What the single- and multi-family managers share. */
module BaseDynamicAppManager {
  import opened Wrappers
  import opened KotlinStdlib
  import opened DynamicAppManagerPrefs

  /** The number of failed toggle attempts that are retried. */
  const MAX_FAILED_ATTEMPT_COUNT: int32 := 3

  /**
   * The steps a manager takes that the outside world can see, in order:
   * the pre-switch hook call, each committed preferences edit (with the
   * whole record it leaves), and each pass over the component registry.
   */
  datatype Effect =
    | PreAppFamilySwitch(fromAppFamily: string, toAppFamily: string)
    | Commit(record: Record)
    | SwitchComponents(appFamily: string)
    | ResetComponents

  /**
   * The write-ahead edit made before every registry pass: the attempt count
   * becomes the in-memory count plus one (a Kotlin `Int` addition), and no
   * other key is touched.
   */
  function AttemptCommitted(r: Record, loadedCount: int32): Record {
    r.(failedToggleAttemptCount := Some(Inc(loadedCount)))
  }

  /**
   * The record a process leaves behind when it dies right after its first
   * committed edit: the record of the first `Commit` among `effects`, or
   * `otherwise` when nothing was committed.
   */
  function FirstCommit(effects: seq<Effect>, otherwise: Record): Record
    decreases |effects|
  {
    if effects == [] then otherwise
    else if effects[0].Commit? then effects[0].record
    else FirstCommit(effects[1..], otherwise)
  }
}

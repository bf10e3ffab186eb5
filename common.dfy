/** Small value types shared by every monitor of the proctoring core. */
module Common {

  /** A value that may be absent (JavaScript `null` / `undefined`). */
  datatype Option<+T> = None | Some(value: T)

  /**
   * One step of a monitor's life as driven by the controller: `start()` at a time,
   * `stop()`, or one per-frame evaluation of an input at a time. Traces of these
   * are what the session-level lemmas quantify over.
   */
  datatype Event<+I> = Begin(at: int) | End | Tick(input: I, at: int)
}

/** The observable status record of the detector (`DrowsinessState`). */
module State {

  /** An immutable record; every parameter carries the source's default.
      Updates are written `s.(field := v)`, which is Kotlin's `copy`:
      the named fields are replaced and the others kept. */
  datatype DrowsinessState = DrowsinessState(
    status: string := "Initializing...",
    probability: real := 0.0,
    featureCount: int := 0)

  /** The record as first published, built from the defaults alone. */
  function Initial(): (s: DrowsinessState)
    ensures s.status == "Initializing..."
    ensures s.probability == 0.0
    ensures s.featureCount == 0
  {
    DrowsinessState()
  }
}

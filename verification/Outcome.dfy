/** Failure-compatible results shared by the models. */
module Outcome {

  datatype Option<+T> = None | Some(value: T)

  /** What a process observes of one effect. `Died` is a crash of the process
      itself: nothing after it runs, which is exactly what `:-` does with it. */
  datatype Reply = Alive(ok: bool) | Died {
    predicate IsFailure() { Died? }

    function PropagateFailure(): Reply
      requires Died?
    {
      Died
    }

    function Extract(): bool
      requires Alive?
    {
      ok
    }
  }
}

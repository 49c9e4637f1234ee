module Errors {
  /** The error values the engine can answer a job with. */
  datatype InferenceError =
    | LoadError
    | TokenizeError
    | ContextLengthExceeded(actual: nat, max: nat)
    | KvPoolExhausted(shortBy: nat)
    | Cancelled
    | WorkerDied
    | Overloaded
}

/** Small datatypes shared by the other modules. */
module Common {
  datatype Option<+T> = None | Some(value: T)

  /** The error kinds of a model runner (`ModelRunner.ErrorType`). */
  datatype ErrorType = GrpcConnectionFailed | Failed | BadImplementation | Aborted | AuthError

  /** How an awaited `ModelRunner.init` ends: `(True, None)`, `(False, error)` or a raised exception. */
  datatype InitOutcome = Ready | Refused(error: ErrorType) | Raised

  /** The failure codes the orchestrator understands. */
  datatype FailureCode = CodeBadImplementation | CodeConnectionFailed | CodeMultipleFailed | CodeMultipleTimeout

  function Lookup<K, V>(m: map<K, V>, k: K): Option<V> {
    if k in m then Some(m[k]) else None
  }
}

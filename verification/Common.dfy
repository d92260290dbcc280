/** Shared vocabulary: optional values and the error classes of the engine. */
module Common {

  datatype Option<+T> = None | Some(value: T)

  /** The sentinel errors that callers distinguish, plus one constructor per
      further error path of the modelled functions. */
  datatype Error =
    | LeaseHeld
    | LeaseLost
    | CheckpointConflict
    | ExpectedCheckpointMismatch
    | Cancelled
    | MissingThreadID
    | MissingCheckpointID
    | NegativeKeepLast
    | NoCheckpoint
    | ResumeValueRequired
    | UnknownNode
    | UnknownRoute
    | NodeFailed
    | MaxStepsExceeded
    | BadArtifact
    | DuplicateArtifact
    | MissingToolName
    | MissingOperationID
    | ApprovalDenied
    | ApprovalFailed
    | BadWorkers

  datatype Result<+T> = Ok(value: T) | Err(error: Error)

  /** The caller's context: still live, or already cancelled. */
  datatype Context = Live | Done

  lemma PutTwice<K, V>(m: map<K, V>, key: K, first: V, second: V)
    ensures m[key := first][key := second] == m[key := second]
  {
  }
}

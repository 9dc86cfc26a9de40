/**
 * The exceptions the renderer throws, as values: a message key with its
 * parameters, the "shell execution disabled" error and backend failures.
 */
module ScoreErrors {

  datatype ScoreError =
    | ScoreException(key: string, params: seq<string>)
      /** Shell execution is disabled by configuration. */
    | ScoreDisabled
      /** A file backend operation failed; the status text is its only parameter. */
    | ScoreBackendError(status: string)

  const BackendErrorKey := "score-backend-error"

  /** Errors put the page into the error tracking category, except the disabled one. */
  predicate IsTracked(e: ScoreError) {
    !e.ScoreDisabled?
  }

  function Error(key: string): ScoreError {
    ScoreException(key, [])
  }
}

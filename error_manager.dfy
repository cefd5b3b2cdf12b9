/** The error-policy gate: a single flag, fixed at construction, deciding whether failures propagate. */
module ErrorManager {
  import opened Wrappers
  import opened Exceptions

  datatype CloudflareTurnstileErrorManager = CloudflareTurnstileErrorManager(explicitErrors: bool)

  /**
   * `throwIfExplicitErrorsEnabled`: the failure that propagates to the caller (`Some(e)`), or
   * `None` when the failure is discarded.
   */
  function ThrowIfExplicitErrorsEnabled(manager: CloudflareTurnstileErrorManager, e: Failure): (thrown: Option<Failure>)
    ensures thrown.Some? <==> manager.explicitErrors
    ensures thrown.Some? ==> thrown.value == e
  {
    if manager.explicitErrors then Some(e) else None
  }
}
